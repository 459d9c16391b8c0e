/** Container environments: lists of variables in which the last entry of a name wins
    (bindplane_controller.go, go_runtime_env.go, opamp.go, validate.go). */
module EnvVars {

  import opened Options

  /** `value` stands for a literal or a reference. */
  datatype EnvVar = EnvVar(name: string, value: string)

  /** What a container sees under `name`: the last entry. */
  function Effective(env: seq<EnvVar>, name: string): (r: Option<EnvVar>)
    ensures r.Some? <==> name in Names(env)
    ensures r.Some? ==> r.value in env && r.value.name == name
  {
    if env == [] then None
    else if env[|env| - 1].name == name then Some(env[|env| - 1])
    else Effective(env[..|env| - 1], name)
  }

  function Names(env: seq<EnvVar>): set<string>
  {
    set e | e in env :: e.name
  }

  function Flatten(lists: seq<seq<EnvVar>>): seq<EnvVar>
  {
    if lists == [] then [] else Flatten(lists[..|lists| - 1]) + lists[|lists| - 1]
  }

  /** The user's entries first, then the operator's lists in order. */
  method PrependExtraEnv(extraEnv: seq<EnvVar>, operatorEnv: seq<seq<EnvVar>>) returns (out: seq<EnvVar>)
    ensures out == extraEnv + Flatten(operatorEnv)
  {
    out := [] + extraEnv;
    for i := 0 to |operatorEnv|
      invariant out == extraEnv + Flatten(operatorEnv[..i])
    {
      assert operatorEnv[..i + 1][..i] == operatorEnv[..i];
      out := out + operatorEnv[i];
    }
    assert operatorEnv[..|operatorEnv|] == operatorEnv;
  }

  const GOMAXPROCS := "GOMAXPROCS"
  const GOMEMLIMIT := "GOMEMLIMIT"

  const RESERVED: set<string> :=
    {"KUBERNETES_NAMESPACE_NAME", "KUBERNETES_POD_NAME", "KUBERNETES_CONTAINER_NAME", GOMEMLIMIT, GOMAXPROCS}

  const BINDPLANE_PREFIX := "BINDPLANE_"

  predicate Allowed(name: string, allowBindplanePrefix: bool)
  {
    name !in RESERVED && (allowBindplanePrefix || !(BINDPLANE_PREFIX <= name))
  }

  /** Accepts a user's list exactly when no name in it is kept for the operator. */
  method ValidateExtraEnv(envVars: seq<EnvVar>, allowBindplanePrefix: bool) returns (ok: bool)
    ensures ok <==> forall e :: e in envVars ==> Allowed(e.name, allowBindplanePrefix)
  {
    for i := 0 to |envVars|
      invariant forall j :: 0 <= j < i ==> Allowed(envVars[j].name, allowBindplanePrefix)
    {
      if envVars[i].name in RESERVED {
        return false;
      }
      if !allowBindplanePrefix && BINDPLANE_PREFIX <= envVars[i].name {
        return false;
      }
    }
    return true;
  }

  /** The first entry of the name replaced, or a new entry at the end. */
  function Upsert(env: seq<EnvVar>, e: EnvVar): seq<EnvVar>
  {
    if env == [] then [e]
    else if env[0].name == e.name then [e] + env[1..]
    else [env[0]] + Upsert(env[1..], e)
  }

  class EnvList {
    var items: seq<EnvVar>

    constructor (env: seq<EnvVar>)
      ensures items == env
    {
      items := env;
    }

    /** Overwrites the first entry of the name in place, or appends. */
    method UpsertEnvVar(e: EnvVar)
      modifies this
      ensures items == Upsert(old(items), e)
    {
      for i := 0 to |items|
        invariant items == old(items)
        invariant Upsert(items, e) == items[..i] + Upsert(items[i..], e)
      {
        if items[i].name == e.name {
          items := items[i := e];
          return;
        }
      }
      items := items + [e];
    }

    /** Sets the Go runtime variables the container's resources call for. */
    method ApplyGoRuntimeEnvVars(computed: seq<EnvVar>)
      modifies this
      ensures items == UpsertAll(old(items), computed)
    {
      for i := 0 to |computed|
        invariant items == UpsertAll(old(items), computed[..i])
      {
        assert computed[..i + 1][..i] == computed[..i];
        UpsertEnvVar(computed[i]);
      }
      assert computed[..|computed|] == computed;
    }
  }

  function UpsertAll(env: seq<EnvVar>, es: seq<EnvVar>): seq<EnvVar>
  {
    if es == [] then env else Upsert(UpsertAll(env, es[..|es| - 1]), es[|es| - 1])
  }

  /** A later list hides an earlier one, name by name. */
  lemma {:induction false} EffectiveConcat(a: seq<EnvVar>, b: seq<EnvVar>, name: string)
    ensures Effective(a + b, name) == if name in Names(b) then Effective(b, name) else Effective(a, name)
  {
    if b == [] {
      assert a + b == a;
    } else {
      assert (a + b)[..|a + b| - 1] == a + b[..|b| - 1];
      EffectiveConcat(a, b[..|b| - 1], name);
    }
  }

  lemma {:induction false} UpsertNew(env: seq<EnvVar>, e: EnvVar)
    requires e.name !in Names(env)
    ensures Upsert(env, e) == env + [e]
  {
    if env != [] {
      assert env[0] in env && forall x :: x in env[1..] ==> x in env;
      UpsertNew(env[1..], e);
    }
  }

  lemma {:induction false} UpsertOthers(env: seq<EnvVar>, e: EnvVar, name: string)
    requires name != e.name
    ensures Effective(Upsert(env, e), name) == Effective(env, name)
  {
    if env != [] {
      var tail := if env[0].name == e.name then env[1..] else Upsert(env[1..], e);
      var head := if env[0].name == e.name then e else env[0];
      assert env == [env[0]] + env[1..];
      EffectiveConcat([env[0]], env[1..], name);
      EffectiveConcat([head], tail, name);
      if env[0].name != e.name {
        UpsertOthers(env[1..], e, name);
      }
    }
  }

  /** The upserted value is what the container sees exactly when the name was not already listed
      twice with another value at the end: the overwritten entry is the first, the one read is the last. */
  lemma {:induction false} UpsertVisibleIff(env: seq<EnvVar>, e: EnvVar)
    ensures Effective(Upsert(env, e), e.name) == Some(e) <==> !HiddenBehind(env, e)
  {
    if env != [] {
      if env[0].name == e.name {
        EffectiveConcat([e], env[1..], e.name);
      } else {
        EffectiveConcat([env[0]], Upsert(env[1..], e), e.name);
        UpsertVisibleIff(env[1..], e);
        UpsertNames(env[1..], e);
      }
    }
  }

  /** It can be hidden: the upsert replaces the first of two entries, the container sees the second. */
  lemma UpsertCanBeHidden()
    ensures var env := [EnvVar("A", "1"), EnvVar("A", "2")];
            Upsert(env, EnvVar("A", "3")) == [EnvVar("A", "3"), EnvVar("A", "2")]
            && Effective(Upsert(env, EnvVar("A", "3")), "A") == Some(EnvVar("A", "2"))
  {
    var env := [EnvVar("A", "1"), EnvVar("A", "2")];
    assert [EnvVar("A", "3")] + env[1..] == [EnvVar("A", "3"), EnvVar("A", "2")];
  }

  lemma {:induction false} UpsertNames(env: seq<EnvVar>, e: EnvVar)
    ensures Names(Upsert(env, e)) == Names(env) + {e.name}
  {
    if env != [] {
      var tail := if env[0].name == e.name then env[1..] else Upsert(env[1..], e);
      var head := if env[0].name == e.name then e else env[0];
      if env[0].name != e.name {
        UpsertNames(env[1..], e);
      }
      assert Names(env) == {env[0].name} + Names(env[1..]) by {
        assert forall x :: x in env <==> x == env[0] || x in env[1..];
      }
      assert Names([head] + tail) == {head.name} + Names(tail) by {
        assert forall x :: x in [head] + tail <==> x == head || x in tail;
      }
    }
  }

  /** Behind the first entry of the name there is another one, and the last of those differs from `e`. */
  predicate HiddenBehind(env: seq<EnvVar>, e: EnvVar)
  {
    env != [] &&
    if env[0].name == e.name then Effective(env[1..], e.name).Some? && Effective(env[1..], e.name) != Some(e)
    else HiddenBehind(env[1..], e)
  }

  /** The variables computed from a container's resources. */
  predicate RuntimeVars(computed: seq<EnvVar>)
  {
    && |computed| <= 2
    && (forall e :: e in computed ==> e.name in {GOMAXPROCS, GOMEMLIMIT})
    && (|computed| == 2 ==> computed[0].name == GOMAXPROCS && computed[1].name == GOMEMLIMIT)
  }

  /** The environment a workload's container ends up with, looked up by name: computed runtime
      values, then the operator's lists with later lists over earlier ones, then what a validated
      user list adds. The prefix flag makes no difference. */
  lemma EffectiveEnvironment(extra: seq<EnvVar>, operatorEnv: seq<seq<EnvVar>>, computed: seq<EnvVar>,
                             allowBindplanePrefix: bool, name: string)
    requires forall e :: e in extra ==> Allowed(e.name, allowBindplanePrefix)
    requires GOMAXPROCS !in Names(Flatten(operatorEnv)) && GOMEMLIMIT !in Names(Flatten(operatorEnv))
    requires RuntimeVars(computed)
    ensures Effective(UpsertAll(extra + Flatten(operatorEnv), computed), name) ==
            if name in Names(computed) then Effective(computed, name)
            else if name in Names(Flatten(operatorEnv)) then Effective(Flatten(operatorEnv), name)
            else Effective(extra, name)
  {
    var env := extra + Flatten(operatorEnv);
    assert forall e :: e in env ==> e in extra || e in Flatten(operatorEnv);
    assert GOMAXPROCS !in Names(env) && GOMEMLIMIT !in Names(env);
    UpsertAllNew(env, computed);
    EffectiveConcat(env, computed, name);
    EffectiveConcat(extra, Flatten(operatorEnv), name);
  }

  lemma {:induction false} UpsertAllNew(env: seq<EnvVar>, es: seq<EnvVar>)
    requires forall e :: e in es ==> e.name !in Names(env)
    requires forall i, j :: 0 <= i < j < |es| ==> es[i].name != es[j].name
    ensures UpsertAll(env, es) == env + es
    decreases |es|
  {
    hide Names, Upsert;
    if es == [] {
      assert env + es == env;
    } else {
      var rest, last := es[..|es| - 1], es[|es| - 1];
      UpsertAllNew(env, rest);
      NewBehind(env, rest, last);
      UpsertNew(env + rest, last);
      assert env + es == env + rest + [last];
    }
  }

  lemma NewBehind(env: seq<EnvVar>, rest: seq<EnvVar>, e: EnvVar)
    requires e.name !in Names(env) && forall i :: 0 <= i < |rest| ==> rest[i].name != e.name
    ensures e.name !in Names(env + rest)
  {}

  /** The OpAMP deployment lists its own settings last, so they win over the shared ones. */
  lemma OpampOverridesShared(shared: seq<seq<EnvVar>>, override: seq<EnvVar>, name: string)
    ensures Effective(Flatten(shared + [override]), name) ==
            if name in Names(override) then Effective(override, name) else Effective(Flatten(shared), name)
  {
    assert (shared + [override])[..|shared|] == shared;
    EffectiveConcat(Flatten(shared), override, name);
  }

  /** The five names the operator sets in every container are refused, names with its prefix unless it is allowed, and
      no others. */
  lemma NameRules(name: string, allowBindplanePrefix: bool)
    ensures Allowed(name, allowBindplanePrefix) <==>
            name != "KUBERNETES_NAMESPACE_NAME" && name != "KUBERNETES_POD_NAME" && name != "KUBERNETES_CONTAINER_NAME"
            && name != "GOMAXPROCS" && name != "GOMEMLIMIT"
            && (allowBindplanePrefix || |name| < 10 || name[..10] != "BINDPLANE_")
  {}
}
