/**
 The maintenance sweep of the uploads root (scripts/cleanup.js).

 The uploads root holds one top-level entry per job, named by its job id. The
 sweep reads the clock once, lists the root, and removes (recursively, forced)
 every entry whose modification time is more than one hour before that instant,
 except the entry named `DEMO_SAMPLE_ID`. A removal that throws is caught for
 that entry alone; a `stat` that throws is not caught and ends the sweep.

 An entry is modelled by its name and its modification time in milliseconds;
 removing the name removes the entry's whole subtree.
 */
module Sweep {

  /** Entries older than this many milliseconds are removed: one hour. */
  const MaxAge: int := 60 * 60 * 1000

  /** The name of the entry the sweep never removes. */
  const DemoId: string := "DEMO_SAMPLE_ID"

  /** How one run of the sweep ends. */
  datatype Outcome =
    | NoRoot                    // the uploads root does not exist: nothing is listed
    | ListFailed                // listing the root threw, which ends the run before any entry
    | Completed                 // every listed entry was examined
    | StatFailed(name: string)  // `stat` of `name` threw, which ends the run

  /** The entries left after examining some names, and how the examination ended. */
  datatype Pass = Pass(entries: map<string, int>, outcome: Outcome)

  /** The age test: strictly more than one hour before `now`. */
  predicate Expired(now: int, mtime: int)
  {
    now - mtime > MaxAge
  }

  /** The sweep tries to remove `name`, and the removal does not throw. */
  predicate Removed(name: string, mtime: int, now: int, failing: set<string>)
  {
    name != DemoId && Expired(now, mtime) && name !in failing
  }

  /**
   The sweep's effect, one listed name at a time, in listing order: the demo name
   is skipped before anything else; a name that cannot be stat'ed (including one
   no longer present) ends the run; an expired entry is removed unless its
   removal throws, and the run carries on either way.
   */
  function Examine(entries: map<string, int>, failing: set<string>, unstatable: set<string>,
                   now: int, names: seq<string>): (r: Pass)
    ensures r.entries.Keys <= entries.Keys
    ensures forall n :: n in r.entries ==> r.entries[n] == entries[n]
    ensures DemoId in entries ==> DemoId in r.entries
    ensures r.outcome.Completed? || r.outcome.StatFailed?
    decreases |names|
  {
    if names == [] then Pass(entries, Completed)
    else
      var name := names[0];
      if name == DemoId then
        Examine(entries, failing, unstatable, now, names[1..])
      else if name !in entries || name in unstatable then
        Pass(entries, StatFailed(name))
      else if Removed(name, entries[name], now, failing) then
        Examine(entries - {name}, failing, unstatable, now, names[1..])
      else
        Examine(entries, failing, unstatable, now, names[1..])
  }

  /** The entries that survive once the names in `examined` have been examined. */
  function Survivors(entries: map<string, int>, failing: set<string>, now: int,
                     examined: set<string>): map<string, int>
  {
    map n | n in entries && !(n in examined && Removed(n, entries[n], now, failing)) :: entries[n]
  }

  /** `names` is a directory listing of `entries`: every entry exactly once. */
  ghost predicate IsListing(names: seq<string>, entries: map<string, int>)
  {
    && (forall i, j :: 0 <= i < j < |names| ==> names[i] != names[j])
    && (forall n :: n in names <==> n in entries)
  }

  /** Every name can be examined without a `stat` failure. */
  ghost predicate Statable(names: seq<string>, entries: map<string, int>, unstatable: set<string>)
  {
    forall n :: n in names && n != DemoId ==> n in entries && n !in unstatable
  }

  /** The entries after examining the statable name `x` alone. */
  function Step(entries: map<string, int>, failing: set<string>, now: int, x: string): map<string, int>
  {
    if x in entries && Removed(x, entries[x], now, failing) then entries - {x} else entries
  }

  /** The names of a sequence, as a set. */
  ghost function Elements(names: seq<string>): set<string>
  {
    set n | n in names
  }

  /** Examining one more name extends the closed form by that name. */
  lemma SurvivorsStep(entries: map<string, int>, failing: set<string>, now: int,
                      x: string, rest: set<string>)
    requires x !in rest
    ensures Survivors(Step(entries, failing, now, x), failing, now, rest)
         == Survivors(entries, failing, now, {x} + rest)
  {
  }

  /** Examining a statable first name is one `Step`. */
  lemma ExamineFirst(entries: map<string, int>, failing: set<string>, unstatable: set<string>,
                     now: int, names: seq<string>)
    requires names != []
    requires names[0] == DemoId || (names[0] in entries && names[0] !in unstatable)
    ensures Examine(entries, failing, unstatable, now, names)
         == Examine(Step(entries, failing, now, names[0]), failing, unstatable, now, names[1..])
  {
  }

  /** The split of a listing's first `k` names into its head and the rest. */
  lemma ElementsSplit(names: seq<string>, k: nat)
    requires 0 < k <= |names|
    requires forall i, j :: 0 <= i < j < |names| ==> names[i] != names[j]
    ensures names[0] !in Elements(names[1..k])
    ensures Elements(names[..k]) == {names[0]} + Elements(names[1..k])
  {
  }

  /**
   The fold after `k` statable names equals the closed form over those names,
   followed by the fold over the remaining names.
   */
  lemma {:induction false} ExaminePrefix(entries: map<string, int>, failing: set<string>,
                                         unstatable: set<string>, now: int, names: seq<string>, k: nat)
    requires k <= |names|
    requires forall i, j :: 0 <= i < j < |names| ==> names[i] != names[j]
    requires Statable(names[..k], entries, unstatable)
    ensures Examine(entries, failing, unstatable, now, names)
         == Examine(Survivors(entries, failing, now, Elements(names[..k])), failing, unstatable, now, names[k..])
    decreases k
  {
    if k == 0 {
      assert Survivors(entries, failing, now, Elements(names[..0])) == entries;
    } else {
      var x, tail := names[0], names[1..];
      assert x in names[..k];
      ExamineFirst(entries, failing, unstatable, now, names);
      var e := Step(entries, failing, now, x);
      ElementsSplit(names, k);
      assert tail[..k - 1] == names[1..k];
      assert Statable(tail[..k - 1], e, unstatable) by {
        forall n | n in tail[..k - 1] && n != DemoId
          ensures n in e && n !in unstatable
        {
          assert n in names[..k];
          assert n in Elements(names[1..k]);
        }
      }
      ExaminePrefix(e, failing, unstatable, now, tail, k - 1);
      assert tail[k - 1..] == names[k..];
      SurvivorsStep(entries, failing, now, x, Elements(names[1..k]));
    }
  }

  /**
   A full sweep over a listing whose entries can all be stat'ed completes, and the
   survivors are exactly the demo entry, the entries not older than one hour, and
   the entries whose removal failed; every survivor keeps its modification time.
   */
  lemma SweepSurvivors(entries: map<string, int>, failing: set<string>, unstatable: set<string>,
                       now: int, names: seq<string>)
    requires IsListing(names, entries)
    requires Statable(names, entries, unstatable)
    ensures var r := Examine(entries, failing, unstatable, now, names);
            && r.outcome == Completed
            && (forall n :: n in r.entries <==>
                  n in entries && (n == DemoId || !Expired(now, entries[n]) || n in failing))
            && (forall n :: n in r.entries ==> r.entries[n] == entries[n])
  {
    assert names[..|names|] == names;
    ExaminePrefix(entries, failing, unstatable, now, names, |names|);
  }

  /**
   A `stat` failure at position `k` ends the sweep there: the names before it have
   been examined as in a full sweep, and every entry after it is left untouched.
   */
  lemma StatFailureEndsSweep(entries: map<string, int>, failing: set<string>, unstatable: set<string>,
                             now: int, names: seq<string>, k: nat)
    requires k < |names|
    requires forall i, j :: 0 <= i < j < |names| ==> names[i] != names[j]
    requires Statable(names[..k], entries, unstatable)
    requires names[k] != DemoId && (names[k] !in entries || names[k] in unstatable)
    ensures Examine(entries, failing, unstatable, now, names)
         == Pass(Survivors(entries, failing, now, Elements(names[..k])), StatFailed(names[k]))
  {
    ExaminePrefix(entries, failing, unstatable, now, names, k);
    var s := Survivors(entries, failing, now, Elements(names[..k]));
    assert names[k] in s ==> names[k] in entries;
  }

  /**
   The age boundary: an entry exactly one hour old, or dated in the future, survives
   a full sweep, and so does the demo entry however old it is.
   */
  lemma BoundaryEntriesKept(entries: map<string, int>, failing: set<string>, unstatable: set<string>,
                            now: int, names: seq<string>, n: string)
    requires IsListing(names, entries)
    requires Statable(names, entries, unstatable)
    requires n in entries && (n == DemoId || entries[n] == now - MaxAge || entries[n] > now)
    ensures var r := Examine(entries, failing, unstatable, now, names);
            n in r.entries && r.entries[n] == entries[n]
  {
    SweepSurvivors(entries, failing, unstatable, now, names);
  }

  /**
   A removal that throws does not stop the sweep: with a listing whose every
   non-demo entry is expired, each of them is removed except those whose removal
   failed, wherever the failing ones stand in the listing.
   */
  lemma FailedRemovalIsolated(entries: map<string, int>, failing: set<string>, unstatable: set<string>,
                              now: int, names: seq<string>)
    requires IsListing(names, entries)
    requires Statable(names, entries, unstatable)
    requires forall n :: n in entries && n != DemoId ==> Expired(now, entries[n])
    ensures var r := Examine(entries, failing, unstatable, now, names);
            r.entries.Keys == (entries.Keys * ({DemoId} + failing))
  {
    SweepSurvivors(entries, failing, unstatable, now, names);
  }

  /**
   Three job directories aged 30 minutes, 90 minutes and 10 days, plus the demo
   entry (aged 10 days as well): the sweep removes exactly the two older than an
   hour.
   */
  lemma ThreeJobScenario(now: int)
    ensures var entries := map["a" := now - 30 * 60 * 1000, "b" := now - 90 * 60 * 1000,
                               "c" := now - 10 * 24 * MaxAge, DemoId := now - 10 * 24 * MaxAge];
            var r := Examine(entries, {}, {}, now, ["a", "b", "c", DemoId]);
            r == Pass(map["a" := now - 30 * 60 * 1000, DemoId := now - 10 * 24 * MaxAge], Completed)
  {
    var entries := map["a" := now - 30 * 60 * 1000, "b" := now - 90 * 60 * 1000,
                       "c" := now - 10 * 24 * MaxAge, DemoId := now - 10 * 24 * MaxAge];
    var names := ["a", "b", "c", DemoId];
    assert IsListing(names, entries) by {
      assert forall n :: n in names <==> n in entries;
    }
    SweepSurvivors(entries, {}, {}, now, names);
    var r := Examine(entries, {}, {}, now, names);
    assert r.entries.Keys == {"a", DemoId};
  }

  /** The uploads directory as the sweep sees it. */
  class UploadsDir {
    /** Whether anything exists at the uploads path. */
    var present: bool
    /**
     Whether what exists there can be listed: a plain file or an unreadable
     directory passes the existence test but makes the listing throw.
     */
    var listable: bool
    /** Top-level entries: name to modification time in milliseconds. */
    var entries: map<string, int>
    /** Entries whose recursive removal throws. */
    var failing: set<string>
    /** Entries whose `stat` throws. */
    var unstatable: set<string>

    constructor (present: bool, listable: bool, entries: map<string, int>,
                 failing: set<string>, unstatable: set<string>)
      ensures this.present == present && this.listable == listable && this.entries == entries
      ensures this.failing == failing && this.unstatable == unstatable
    {
      this.present := present;
      this.listable := listable;
      this.entries := entries;
      this.failing := failing;
      this.unstatable := unstatable;
    }

    /**
     One run of the sweep. `now` is the single clock reading every age is measured
     against; `listing` stands for the result of listing the directory, in the
     order it is read, and the survivor lemmas (`SweepSurvivors` and those after
     it) apply when it names every entry exactly once (`IsListing`). A name that
     is not an entry cannot be stat'ed; an entry that is not listed is not examined.
     */
    method Sweep(now: int, listing: seq<string>) returns (outcome: Outcome)
      modifies this`entries
      ensures !present ==> outcome == NoRoot && entries == old(entries)
      ensures present && !listable ==> outcome == ListFailed && entries == old(entries)
      ensures present && listable ==>
                Pass(entries, outcome) == Examine(old(entries), failing, unstatable, now, listing)
    {
      if !present {
        return NoRoot;
      }
      if !listable {
        return ListFailed;
      }
      var i := 0;
      while i < |listing|
        invariant 0 <= i <= |listing|
        invariant Examine(old(entries), failing, unstatable, now, listing)
               == Examine(entries, failing, unstatable, now, listing[i..])
      {
        var name := listing[i];
        assert listing[i..][1..] == listing[i + 1..];
        if name != DemoId {
          if name !in entries || name in unstatable {
            return StatFailed(name);
          }
          var age := now - entries[name];
          if age > MaxAge {
            if name !in failing {
              entries := entries - {name};
            }
          }
        }
        i := i + 1;
      }
      return Completed;
    }
  }
}
