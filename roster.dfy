/** The participant roster of a live class (`updateParticipantCount`,
  * `addParticipant`, `removeParticipant` in static/js/live_class.js): a list
  * of display names and a count shown beside it. */
module Roster {
  import opened Wrappers
  import opened Seqs

  /** `names` without its first occurrence of `name`; unchanged when absent. */
  function RemoveFirst(names: seq<string>, name: string): (r: seq<string>)
    ensures |r| == if name in names then |names| - 1 else |names|
    ensures multiset(r) == multiset(names) - multiset{name}
  {
    match FirstIndexOf(names, name)
    case None => names
    case Some(i) =>
      DeleteAt(names, i);
      names[..i] + names[i + 1..]
  }

  /** Removing an absent name changes nothing. */
  lemma RemoveAbsentIsNoop(names: seq<string>, name: string)
    requires name !in names
    ensures RemoveFirst(names, name) == names
  {
  }

  /** Removing a present name deletes exactly its first occurrence: the
    * entries before it stay in place, the ones after it move up by one, and
    * exactly one copy of the name is gone. */
  lemma RemoveFirstOccurrence(names: seq<string>, name: string)
    requires name in names
    ensures var r := RemoveFirst(names, name);
      var i := FirstIndexOf(names, name).value;
      && |r| == |names| - 1
      && names[i] == name && name !in names[..i]
      && (forall j :: 0 <= j < i ==> r[j] == names[j])
      && (forall j :: i <= j < |r| ==> r[j] == names[j + 1])
      && multiset(r) == multiset(names) - multiset{name}
  {
    var i := FirstIndexOf(names, name).value;
    DeleteAt(names, i);
  }

  /** Deleting position `i` shifts the later entries up by one and removes
    * exactly one copy of the entry that was there. */
  lemma DeleteAt(s: seq<string>, i: nat)
    requires i < |s|
    ensures var r := s[..i] + s[i + 1..];
      && |r| == |s| - 1
      && (forall j :: 0 <= j < i ==> r[j] == s[j])
      && (forall j :: i <= j < |r| ==> r[j] == s[j + 1])
      && multiset(r) == multiset(s) - multiset{s[i]}
  {
    var before, after := s[..i], s[i + 1..];
    assert multiset(s) == multiset(before) + multiset{s[i]} + multiset(after) by {
      assert s == before + [s[i]] + after;
    }
  }

  /** Adding a name and then removing it leaves the roster as before when the
    * name was new; when it was already listed, the earlier entry is the one
    * removed and the new one stays at the end: two participants with the same
    * display name cannot be told apart. */
  lemma AddThenRemove(names: seq<string>, name: string)
    ensures name !in names ==> RemoveFirst(names + [name], name) == names
    ensures name in names ==> RemoveFirst(names + [name], name) == RemoveFirst(names, name) + [name]
  {
    var s := names + [name];
    if name !in names {
      assert s[..|names|] == names;
      FirstIndexOfUnique(s, name, |names|);
    } else {
      var i := FirstIndexOf(names, name).value;
      assert s[..i] == names[..i];
      FirstIndexOfUnique(s, name, i);
      assert s[i + 1..] == names[i + 1..] + [name];
    }
  }

  /** The `#participants-list` items' texts and the `#participant-count` text. */
  class ParticipantList {
    var names: seq<string>
    var count: int

    constructor (names: seq<string>, count: int)
      ensures this.names == names && this.count == count
    {
      this.names := names;
      this.count := count;
    }

    /** `updateParticipantCount(count)`: shows the server's figure, whatever
      * the list holds. */
    method UpdateParticipantCount(count: int)
      modifies this`count
      ensures this.count == count
    {
      this.count := count;
    }

    /** `addParticipant(name)`: one item at the end. */
    method AddParticipant(name: string)
      modifies this`names
      ensures names == old(names) + [name]
    {
      names := names + [name];
    }

    /** `removeParticipant(name)`: find the first item whose text is `name`
      * and remove it, if there is one. */
    method RemoveParticipant(name: string)
      modifies this`names
      ensures names == RemoveFirst(old(names), name)
    {
      var i := 0;
      while i < |names| && names[i] != name
        invariant 0 <= i <= |names|
        invariant name !in names[..i]
      {
        i := i + 1;
      }
      if i < |names| {
        FirstIndexOfUnique(names, name, i);
        names := names[..i] + names[i + 1..];
      } else {
        assert names[..i] == names;
      }
    }
  }
}
