/**
 * How each engine effect changes the three-way reading of a catalog service. The reading
 * is restated over positions in the container listing, which is how the effects address
 * containers.
 */
module Readings {
  import opened Util
  import opened Catalog
  import opened Engine
  import opened Inventory

  /** Some container of the listing counts for `k`. */
  predicate CountsAt(cs: seq<Container>, k: string) {
    exists j :: 0 <= j < |cs| && FirstMatch(cs[j].names) == Some(k)
  }

  /** Some running container of the listing counts for `k`. */
  predicate RunsAt(cs: seq<Container>, k: string) {
    exists j :: 0 <= j < |cs| && cs[j].running && FirstMatch(cs[j].names) == Some(k)
  }

  /** The reading of `k` by positions: Running, else Stopped if installed, else Not Installed. */
  lemma StateAt(cs: seq<Container>, k: string)
    ensures StateOf(cs, k) == if RunsAt(cs, k) then Running else if CountsAt(cs, k) then Stopped else NotInstalled
  {
    StateOfMeaning(cs, k);
    if Installed(k, cs) {
      var c :| c in cs && FirstMatch(c.names) == Some(k);
      var j :| 0 <= j < |cs| && cs[j] == c;
    }
    if CountsAt(cs, k) {
      var j :| 0 <= j < |cs| && FirstMatch(cs[j].names) == Some(k);
      assert cs[j] in cs;
    }
    if exists c :: c in cs && c.running && FirstMatch(c.names) == Some(k) {
      var c :| c in cs && c.running && FirstMatch(c.names) == Some(k);
      var j :| 0 <= j < |cs| && cs[j] == c;
    }
    if RunsAt(cs, k) {
      var j :| 0 <= j < |cs| && cs[j].running && FirstMatch(cs[j].names) == Some(k);
      assert cs[j] in cs;
    }
  }

  /** With unique names, the container found by name is the only one that can count for it. */
  lemma CountingContainer(cs: seq<Container>, name: string)
    requires UniqueNames(cs) && HasName(cs, name)
    ensures Lookup(cs, name).Some?
    ensures forall j :: 0 <= j < |cs| && j != Lookup(cs, name).value ==> FirstMatch(cs[j].names) != Some(name)
    ensures CountsAt(cs, name) ==> FirstMatch(cs[Lookup(cs, name).value].names) == Some(name)
  {
  }

  /** A name that does not read Not Installed is carried by some container. */
  lemma InstalledIsNamed(cs: seq<Container>, k: string)
    requires StateOf(cs, k) != NotInstalled
    ensures HasName(cs, k)
  {
    StateOfMeaning(cs, k);
    var c :| c in cs && FirstMatch(c.names) == Some(k);
    var i :| 0 <= i < |cs| && cs[i] == c;
    assert "/" + k in cs[i].names;
  }

  /** The one position of a listing without repeated names that counts for `name`. */
  lemma CountedAt(cs: seq<Container>, name: string) returns (i: nat)
    requires UniqueNames(cs) && CountsAt(cs, name)
    ensures i < |cs| && Lookup(cs, name) == Some(i)
    ensures FirstMatch(cs[i].names) == Some(name)
    ensures forall j :: 0 <= j < |cs| && j != i ==> FirstMatch(cs[j].names) != Some(name)
  {
    var j :| 0 <= j < |cs| && FirstMatch(cs[j].names) == Some(name);
    assert HasName(cs, name);
    CountingContainer(cs, name);
    i := Lookup(cs, name).value;
  }

  /** Two listings, position by position, that agree on what counts for `k` and on its running flags. */
  lemma SameReading(cs: seq<Container>, cs': seq<Container>, k: string)
    requires |cs'| == |cs|
    requires forall j :: 0 <= j < |cs| ==> FirstMatch(cs'[j].names) == FirstMatch(cs[j].names)
    requires forall j :: 0 <= j < |cs| && FirstMatch(cs[j].names) == Some(k) ==> cs'[j].running == cs[j].running
    ensures StateOf(cs', k) == StateOf(cs, k)
  {
    StateAt(cs, k);
    StateAt(cs', k);
    if RunsAt(cs, k) {
      var j :| 0 <= j < |cs| && cs[j].running && FirstMatch(cs[j].names) == Some(k);
      assert cs'[j].running && FirstMatch(cs'[j].names) == Some(k);
    }
    if RunsAt(cs', k) {
      var j :| 0 <= j < |cs'| && cs'[j].running && FirstMatch(cs'[j].names) == Some(k);
      assert cs[j].running && FirstMatch(cs[j].names) == Some(k);
    }
    if CountsAt(cs, k) {
      var j :| 0 <= j < |cs| && FirstMatch(cs[j].names) == Some(k);
      assert FirstMatch(cs'[j].names) == Some(k);
    }
  }

  /**
   * Changing only the running flag (and start settings) of the one container that counts for
   * `name`: `name` reads that flag and every other reading is unchanged.
   */
  lemma FlagFrame(cs: seq<Container>, cs': seq<Container>, i: nat, name: string)
    requires i < |cs| && |cs'| == |cs|
    requires forall j :: 0 <= j < |cs| ==> cs'[j].names == cs[j].names
    requires forall j :: 0 <= j < |cs| && j != i ==> cs'[j] == cs[j]
    requires FirstMatch(cs[i].names) == Some(name)
    requires forall j :: 0 <= j < |cs| && j != i ==> FirstMatch(cs[j].names) != Some(name)
    ensures StateOf(cs', name) == if cs'[i].running then Running else Stopped
    ensures forall k :: k != name ==> StateOf(cs', k) == StateOf(cs, k)
  {
    StateAt(cs', name);
    assert CountsAt(cs', name) by { assert FirstMatch(cs'[i].names) == Some(name); }
    if RunsAt(cs', name) {
      var j :| 0 <= j < |cs'| && cs'[j].running && FirstMatch(cs'[j].names) == Some(name);
      assert j == i;
    }
    if cs'[i].running {
      assert cs'[i].running && FirstMatch(cs'[i].names) == Some(name);
    }
    forall k | k != name ensures StateOf(cs', k) == StateOf(cs, k) {
      SameReading(cs, cs', k);
    }
  }

  /** A new stopped container for an absent name: that name reads Stopped, nothing else changes. */
  lemma AppendFrame(cs: seq<Container>, c: Container, name: string)
    requires FirstMatch(c.names) == Some(name) && !c.running
    requires !HasName(cs, name)
    ensures StateOf(cs + [c], name) == Stopped
    ensures forall k :: k != name ==> StateOf(cs + [c], k) == StateOf(cs, k)
  {
    var cs' := cs + [c];
    StateAt(cs', name);
    assert FirstMatch(cs'[|cs|].names) == Some(name);
    assert forall j :: 0 <= j < |cs| ==> FirstMatch(cs[j].names) != Some(name);
    assert !RunsAt(cs', name);
    forall k | k != name ensures StateOf(cs', k) == StateOf(cs, k) {
      AppendKeeps(cs, c, k);
    }
  }

  /** Appending a container keeps every reading it does not count for. */
  lemma AppendKeeps(cs: seq<Container>, c: Container, k: string)
    requires FirstMatch(c.names) != Some(k)
    ensures StateOf(cs + [c], k) == StateOf(cs, k)
  {
    var cs' := cs + [c];
    StateAt(cs, k);
    StateAt(cs', k);
    if RunsAt(cs', k) {
      var j :| 0 <= j < |cs'| && cs'[j].running && FirstMatch(cs'[j].names) == Some(k);
      assert j < |cs| && cs[j] == cs'[j];
    }
    if CountsAt(cs', k) {
      var j :| 0 <= j < |cs'| && FirstMatch(cs'[j].names) == Some(k);
      assert j < |cs| && cs[j] == cs'[j];
    }
    if RunsAt(cs, k) {
      var j :| 0 <= j < |cs| && cs[j].running && FirstMatch(cs[j].names) == Some(k);
      assert cs'[j] == cs[j];
    }
    if CountsAt(cs, k) {
      var j :| 0 <= j < |cs| && FirstMatch(cs[j].names) == Some(k);
      assert cs'[j] == cs[j];
    }
  }

  /** Deleting a container leaves unchanged every reading it did not count for. */
  lemma DropKeeps(cs: seq<Container>, i: nat, k: string)
    requires i < |cs| && FirstMatch(cs[i].names) != Some(k)
    ensures StateOf(cs[..i] + cs[i + 1..], k) == StateOf(cs, k)
  {
    var cs' := cs[..i] + cs[i + 1..];
    DropCounts(cs, cs', i, k);
    DropRuns(cs, cs', i, k);
    StateAt(cs, k);
    StateAt(cs', k);
  }

  lemma DropCounts(cs: seq<Container>, cs': seq<Container>, i: nat, k: string)
    requires i < |cs| && cs' == cs[..i] + cs[i + 1..] && FirstMatch(cs[i].names) != Some(k)
    ensures CountsAt(cs', k) == CountsAt(cs, k)
  {
    DropShift(cs, cs', i);
    if CountsAt(cs', k) {
      var j :| 0 <= j < |cs'| && FirstMatch(cs'[j].names) == Some(k);
      assert FirstMatch(cs[if j < i then j else j + 1].names) == Some(k);
    }
    if CountsAt(cs, k) {
      var j :| 0 <= j < |cs| && FirstMatch(cs[j].names) == Some(k);
      assert FirstMatch(cs'[if j < i then j else j - 1].names) == Some(k);
    }
  }

  lemma DropRuns(cs: seq<Container>, cs': seq<Container>, i: nat, k: string)
    requires i < |cs| && cs' == cs[..i] + cs[i + 1..] && FirstMatch(cs[i].names) != Some(k)
    ensures RunsAt(cs', k) == RunsAt(cs, k)
  {
    DropShift(cs, cs', i);
    if RunsAt(cs', k) {
      var j :| 0 <= j < |cs'| && cs'[j].running && FirstMatch(cs'[j].names) == Some(k);
      assert cs[if j < i then j else j + 1].running;
    }
    if RunsAt(cs, k) {
      var j :| 0 <= j < |cs| && cs[j].running && FirstMatch(cs[j].names) == Some(k);
      assert cs'[if j < i then j else j - 1].running;
    }
  }

  /** Positions after a deletion: those before `i` stay, those after move down by one. */
  lemma DropShift(cs: seq<Container>, cs': seq<Container>, i: nat)
    requires i < |cs| && cs' == cs[..i] + cs[i + 1..]
    ensures |cs'| == |cs| - 1
    ensures forall j :: 0 <= j < i ==> cs'[j] == cs[j]
    ensures forall j :: i <= j < |cs'| ==> cs'[j] == cs[j + 1]
  {
  }

  /** Deleting the one container that carries `name` leaves `name` Not Installed. */
  lemma DropUninstalls(cs: seq<Container>, i: nat, name: string)
    requires i < |cs| && forall j :: 0 <= j < |cs| && j != i ==> FirstMatch(cs[j].names) != Some(name)
    ensures StateOf(cs[..i] + cs[i + 1..], name) == NotInstalled
  {
    var cs' := cs[..i] + cs[i + 1..];
    DropShift(cs, cs', i);
    forall j | 0 <= j < |cs'| ensures FirstMatch(cs'[j].names) != Some(name) {
      assert cs'[j] == cs[if j < i then j else j + 1];
    }
    StateAt(cs', name);
  }

  /** Deleting a container never installs a service. */
  lemma DropNeverInstalls(cs: seq<Container>, i: nat, k: string)
    requires i < |cs| && StateOf(cs, k) == NotInstalled
    ensures StateOf(cs[..i] + cs[i + 1..], k) == NotInstalled
  {
    var cs' := cs[..i] + cs[i + 1..];
    DropShift(cs, cs', i);
    StateAt(cs, k);
    forall j | 0 <= j < |cs'| ensures FirstMatch(cs'[j].names) != Some(k) {
      assert cs'[j] == cs[if j < i then j else j + 1];
    }
    StateAt(cs', k);
  }
}
