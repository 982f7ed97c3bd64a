/**
 * Newest-first selection over a collection kept in insertion order, as the
 * handlers' `find(filter).sort({ createdAt: -1 })` queries return it.
 */
module Timeline {
  import opened Common

  /** The documents of `log` that `keep` accepts, last inserted first. */
  function Latest<T(==)>(docs: map<Id, T>, log: seq<Id>, keep: T -> bool): (r: seq<T>)
    requires forall i :: 0 <= i < |log| ==> log[i] in docs
    ensures forall x :: x in r ==> keep(x) && x in docs.Values
    ensures forall k :: 0 <= k < |log| && keep(docs[log[k]]) ==> docs[log[k]] in r
    decreases |log|
  {
    if log == [] then []
    else
      var init := log[..|log| - 1];
      var last := docs[log[|log| - 1]];
      var rest := Latest(docs, init, keep);
      assert forall k :: 0 <= k < |init| ==> init[k] == log[k];
      (if keep(last) then [last] else []) + rest
  }

  /** Each element was created strictly later than every element after it. */
  ghost predicate StrictlyNewestFirst<T>(s: seq<T>, stamp: T -> nat)
  {
    forall i, j :: 0 <= i < j < |s| ==> stamp(s[i]) > stamp(s[j])
  }

  /** A selection never holds a document created at or after `bound` if the log holds none. */
  lemma {:induction false} LatestBelow<T>(docs: map<Id, T>, log: seq<Id>, keep: T -> bool, stamp: T -> nat, bound: nat)
    requires forall i :: 0 <= i < |log| ==> log[i] in docs
    requires forall i :: 0 <= i < |log| ==> stamp(docs[log[i]]) < bound
    ensures forall x :: x in Latest(docs, log, keep) ==> stamp(x) < bound
    decreases |log|
  {
    if log != [] {
      var init := log[..|log| - 1];
      assert forall k :: 0 <= k < |init| ==> init[k] == log[k];
      LatestBelow(docs, init, keep, stamp, bound);
    }
  }

  /** Two newest-first runs, the first entirely newer than the second, join into one. */
  lemma JoinNewestFirst<T>(pre: seq<T>, rest: seq<T>, stamp: T -> nat)
    requires StrictlyNewestFirst(pre, stamp) && StrictlyNewestFirst(rest, stamp)
    requires forall a, b :: a in pre && b in rest ==> stamp(a) > stamp(b)
    ensures StrictlyNewestFirst(pre + rest, stamp)
  {
    var r := pre + rest;
    forall i, j | 0 <= i < j < |r| ensures stamp(r[i]) > stamp(r[j]) {
      if j < |pre| {
        assert r[i] == pre[i] && r[j] == pre[j];
      } else if i < |pre| {
        assert r[i] == pre[i] && r[i] in pre;
        assert r[j] == rest[j - |pre|] && r[j] in rest;
      } else {
        assert r[i] == rest[i - |pre|] && r[j] == rest[j - |pre|];
      }
    }
  }

  /** When creation stamps grow along the log, the selection is strictly newest first. */
  lemma {:induction false} LatestNewestFirst<T>(docs: map<Id, T>, log: seq<Id>, keep: T -> bool, stamp: T -> nat)
    requires forall i :: 0 <= i < |log| ==> log[i] in docs
    requires forall i, j :: 0 <= i < j < |log| ==> stamp(docs[log[i]]) < stamp(docs[log[j]])
    ensures StrictlyNewestFirst(Latest(docs, log, keep), stamp)
    decreases |log|
  {
    if log != [] {
      var n := |log| - 1;
      var init := log[..n];
      var last := docs[log[n]];
      assert forall k :: 0 <= k < |init| ==> init[k] == log[k];
      assert forall k :: 0 <= k < |init| ==> stamp(docs[init[k]]) < stamp(last) by {
        forall k | 0 <= k < |init| ensures stamp(docs[init[k]]) < stamp(last) {
          assert init[k] == log[k];
        }
      }
      LatestNewestFirst(docs, init, keep, stamp);
      LatestBelow(docs, init, keep, stamp, stamp(last));
      var rest := Latest(docs, init, keep);
      var pre := if keep(last) then [last] else [];
      assert Latest(docs, log, keep) == pre + rest;
      JoinNewestFirst(pre, rest, stamp);
    }
  }

  /** When every stored id is logged, every accepted document is selected. */
  lemma LatestComplete<T>(docs: map<Id, T>, log: seq<Id>, keep: T -> bool)
    requires forall i :: 0 <= i < |log| ==> log[i] in docs
    requires forall id :: id in docs ==> id in log
    ensures forall x :: x in docs.Values && keep(x) ==> x in Latest(docs, log, keep)
  {
    forall x | x in docs.Values && keep(x) ensures x in Latest(docs, log, keep) {
      var id :| id in docs && docs[id] == x;
      var k :| 0 <= k < |log| && log[k] == id;
    }
  }
}
