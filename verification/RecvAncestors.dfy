/**
 The ancestors a receive creates (`creatable_ancestors` and
 `ensure_receive_ancestors` in `daemon/src/stdinserver/recv.rs`).
 */
module RecvAncestors {
  import opened Wrappers
  import opened PushCycle

  function TargetOf(rootFs: string, path: string): string {
    rootFs + "/" + path
  }

  /** Everything before the first `/`. */
  function Pool(path: string): (r: string)
    ensures r <= path
  {
    if path == [] || path[0] == '/' then [] else [path[0]] + Pool(path[1..])
  }

  lemma {:induction false} PoolEndsAtTheFirstSlash(path: string)
    ensures '/' !in Pool(path) && (Pool(path) == path || path[|Pool(path)|] == '/')
  {
    if path != [] && path[0] != '/' {
      PoolEndsAtTheFirstSlash(path[1..]);
    }
  }

  function StopAt(target: string, rootFs: Option<string>): string {
    if rootFs.Some? then rootFs.value else Pool(target)
  }

  /** A proper ancestor of the target that lies strictly below `stop`. */
  predicate Creatable(name: string, target: string, stop: string) {
    IsAncestor(name, target) && |name| > |stop| && stop <= name
  }

  /** Just behind the last `/`, or 0. */
  method LastCut(target: string) returns (cut: nat)
    ensures cut <= |target| && (cut > 0 ==> target[cut - 1] == '/')
    ensures forall x | IsAncestor(x, target) :: |x| < cut
  {
    cut := |target|;
    while cut > 0 && target[cut - 1] != '/'
      invariant 0 <= cut <= |target|
      invariant forall k | cut <= k < |target| :: target[k] != '/'
    {
      cut := cut - 1;
    }
  }

  /** `names` are the creatable ancestors shorter than `n`, each an ancestor of
      the next. */
  ghost predicate Collected(names: seq<string>, target: string, stop: string, n: nat) {
    && (forall x :: x in names <==> Creatable(x, target, stop) && |x| < n)
    && forall k, j | 0 <= k < j < |names| :: IsAncestor(names[k], names[j])
  }

  lemma NextCollected(names: seq<string>, target: string, stop: string, n: nat)
    requires Collected(names, target, stop, n) && n < |target|
    ensures var prefix := target[..n];
            Collected(if target[n] == '/' && |prefix| > |stop| && stop <= prefix then names + [prefix] else names,
                      target, stop, n + 1)
  {
    var prefix := target[..n];
    assert forall x | IsAncestor(x, target) && |x| == n :: x == prefix;
    if target[n] == '/' {
      assert forall k | 0 <= k < |names| :: names[k] in names;
      forall x | x in names
        ensures IsAncestor(x, prefix)
      {
        assert IsAncestor(x, target) && |x| < n;
      }
    }
  }

  method CreatableAncestors(target: string, rootFs: Option<string>) returns (names: seq<string>)
    requires target == [] || target[0] != '/'
    ensures forall x :: x in names <==> Creatable(x, target, StopAt(target, rootFs))
    ensures forall i, j | 0 <= i < j < |names| :: IsAncestor(names[i], names[j])
  {
    names := [];
    var cut := LastCut(target);
    if cut == 0 {
      return;
    }
    var parent, stop := target[..cut - 1], StopAt(target, rootFs);
    for i := 1 to cut
      invariant Collected(names, target, stop, i)
    {
      NextCollected(names, target, stop, i);
      if i == |parent| || parent[i] == '/' {
        var prefix := parent[..i];
        assert prefix == target[..i] && target[i] == '/';
        if |prefix| > |stop| && stop <= prefix {
          names := names + [prefix];
        }
      } else {
        assert target[i] != '/';
      }
    }
  }

  /** Under a root, these are exactly the targets of the dataset's own
      ancestors: what the push cycle counts as created on its behalf. */
  lemma CreatableMirrorsAncestors(rootFs: string, path: string, name: string)
    requires path != [] && path[0] != '/'
    ensures Creatable(name, TargetOf(rootFs, path), rootFs)
            <==> exists a :: IsAncestor(a, path) && name == TargetOf(rootFs, a)
  {
    var target, n := TargetOf(rootFs, path), |rootFs| + 1;
    assert target[n..] == path && target[..n] == rootFs + "/";
    if Creatable(name, target, rootFs) {
      assert target[n] == path[0] && |name| > n;
      var a := name[n..];
      assert name == target[..|name|];
      assert a == path[..|a|] && path[|a|] == target[|name|];
      assert name == TargetOf(rootFs, a);
    }
    if a :| IsAncestor(a, path) && name == TargetOf(rootFs, a) {
      assert a == path[..|a|];
      assert name == target[..|name|] && target[|name|] == path[|a|];
      assert rootFs == name[..|rootFs|];
    }
  }

  datatype AncestorError = ProbeFailed(name: string) | CreateFailed(name: string)

  /** ZFS: a dataset's parents exist. */
  ghost predicate Nested(existing: set<string>) {
    forall x, a | x in existing && IsAncestor(a, x) :: a in existing
  }

  /** `failures` counts the calls that have failed. */
  class Host {
    var existing: set<string>
    ghost var failures: nat

    constructor (existing: set<string>)
      ensures this.existing == existing && failures == 0
    {
      this.existing, failures := existing, 0;
    }

    method Probe(name: string) returns (r: Option<bool>)
      modifies this`failures
      ensures failures == old(failures) + if r.Some? then 0 else 1
      ensures r.Some? ==> r.value == (name in existing)
    {
      var ok: bool := *;
      failures := failures + if ok then 0 else 1;
      r := if ok then Some(name in existing) else None;
    }

    /** `zfs create` without `-p`: the dataset must be new, its parent not. */
    method Create(name: string) returns (ok: bool)
      requires Nested(existing) && name !in existing
      modifies this
      ensures Nested(existing)
      ensures existing == old(existing) || existing == old(existing) + {name}
      ensures ok ==> name in existing
      ensures failures == old(failures) + if ok then 0 else 1
    {
      var effect: bool := *;
      ok := false;
      if effect && forall a | a in Ancestors(name) :: a in existing {
        existing := existing + {name};
        ok := *;
      }
      failures := failures + if ok then 0 else 1;
    }

    /** On success every creatable ancestor exists and nothing else is new. A
        dataset that exists is never created again: the ones behind the first
        missing are missing too. */
    method EnsureReceiveAncestors(rootFs: Option<string>, target: string) returns (r: Result<(), AncestorError>)
      requires Nested(existing) && (target == [] || target[0] != '/')
      modifies this
      ensures Nested(existing) && old(existing) <= existing
      ensures forall x | x in existing - old(existing) :: Creatable(x, target, StopAt(target, rootFs))
      ensures r.Ok? ==> forall x | Creatable(x, target, StopAt(target, rootFs)) :: x in existing
      ensures r.Ok? <==> failures == old(failures)
      ensures r.Err? && r.error.ProbeFailed? ==> existing == old(existing)
    {
      var candidates := CreatableAncestors(target, rootFs);
      var firstMissing := |candidates|;
      var i := 0;
      while i < firstMissing
        invariant existing == old(existing) && 0 <= i <= firstMissing <= |candidates| && failures == old(failures)
        invariant forall k | 0 <= k < i :: candidates[k] in existing
        invariant firstMissing < |candidates| ==> candidates[firstMissing] !in existing && i == firstMissing
      {
        var found := Probe(candidates[i]);
        if found.None? {
          return Err(ProbeFailed(candidates[i]));
        }
        if found.value {
          i := i + 1;
        } else {
          firstMissing := i;
        }
      }
      for n := firstMissing to |candidates|
        invariant Nested(existing) && old(existing) <= existing && failures == old(failures)
        invariant forall x | x in existing - old(existing) :: x in candidates[..n]
        invariant forall m | 0 <= m < n :: candidates[m] in existing
        invariant forall m | n <= m < |candidates| :: candidates[m] !in existing
      {
        var ok := Create(candidates[n]);
        assert candidates[..n + 1] == candidates[..n] + [candidates[n]];
        if !ok {
          assert forall x | x in existing - old(existing) :: x in candidates[..n] || x == candidates[n];
          return Err(CreateFailed(candidates[n]));
        }
      }
      return Ok(());
    }
  }
}
