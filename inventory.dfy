/**
 * The inventory reconciler: which catalog images still have to be pulled, which catalog
 * containers still have to be created, and which catalog containers exist and run.
 *
 * Both diffs follow the source exactly, including its habit of popping matched entries off
 * the list it is iterating over: Python's `for x in lst` walks an index forward while `pop`
 * shifts the remaining entries left, so the entry after a popped one is never examined in
 * that pass. `PopPass` is that loop; `Prune` runs it once per listed image or container.
 */
module Inventory {
  import opened Util
  import opened Catalog
  import opened Engine

  // ---------------------------------------------------------------------------------------
  // The requested list: the first loop of both diff functions.

  /** Each recognised input mapped through `f`, in input order; other inputs are skipped. */
  function Collect(inputs: seq<string>, f: string -> Option<string>): (r: seq<string>)
    ensures |r| <= |inputs|
  {
    if inputs == [] then []
    else
      Collect(inputs[..|inputs| - 1], f)
      + (match f(inputs[|inputs| - 1]) case Some(v) => [v] case None => [])
  }

  lemma {:induction false} CollectMembers(inputs: seq<string>, f: string -> Option<string>, x: string)
    ensures x in Collect(inputs, f) <==> exists i :: 0 <= i < |inputs| && f(inputs[i]) == Some(x)
    decreases |inputs|
  {
    if inputs != [] {
      var init := inputs[..|inputs| - 1];
      CollectMembers(init, f, x);
      if x in Collect(inputs, f) && x !in Collect(init, f) {
        assert f(inputs[|inputs| - 1]) == Some(x);
      }
      if x in Collect(init, f) {
        var i :| 0 <= i < |init| && f(init[i]) == Some(x);
        assert inputs[i] == init[i];
      }
      if exists i :: 0 <= i < |inputs| && f(inputs[i]) == Some(x) {
        var i :| 0 <= i < |inputs| && f(inputs[i]) == Some(x);
        if i < |init| { assert init[i] == inputs[i]; }
      }
    }
  }

  /** When every input is recognised, the requested list is the inputs mapped one to one. */
  lemma {:induction false} CollectRecognised(inputs: seq<string>, f: string -> Option<string>)
    requires forall i :: 0 <= i < |inputs| ==> f(inputs[i]).Some?
    ensures |Collect(inputs, f)| == |inputs|
    ensures forall i :: 0 <= i < |inputs| ==> Collect(inputs, f)[i] == f(inputs[i]).value
    decreases |inputs|
  {
    if inputs != [] {
      var init := inputs[..|inputs| - 1];
      CollectRecognised(init, f);
    }
  }

  /** Every catalog input requests the catalog's images and containers, in catalog order. */
  lemma CollectAllInputs()
    ensures Collect(AllDockerInputs, ImageFor) == RequiredDockerImages
    ensures Collect(AllDockerInputs, ContainerFor) == RequiredDockerContainers
  {
    CollectRecognised(AllDockerInputs, ImageFor);
    CollectRecognised(AllDockerInputs, ContainerFor);
  }

  /** An injective `f` maps distinct inputs to a list without repeats. */
  lemma {:induction false} CollectNoDuplicates(inputs: seq<string>, f: string -> Option<string>)
    requires NoDuplicates(inputs)
    requires forall a, b :: f(a).Some? && f(a) == f(b) ==> a == b
    ensures NoDuplicates(Collect(inputs, f))
    decreases |inputs|
  {
    if inputs != [] {
      var n := |inputs| - 1;
      var init := inputs[..n];
      assert NoDuplicates(init) by {
        forall i, j | 0 <= i < j < |init| ensures init[i] != init[j] { assert init[i] == inputs[i] && init[j] == inputs[j]; }
      }
      CollectNoDuplicates(init, f);
      var c := Collect(init, f);
      var r := Collect(inputs, f);
      if f(inputs[n]).Some? {
        var v := f(inputs[n]).value;
        assert v !in c by {
          CollectMembers(init, f, v);
        }
        forall i, j | 0 <= i < j < |r| ensures r[i] != r[j] {
          if j == |c| { assert r[j] == v && r[i] == c[i]; } else { assert r[i] == c[i] && r[j] == c[j]; }
        }
      } else {
        assert r == c;
      }
    }
  }

  // ---------------------------------------------------------------------------------------
  // Popping matched entries while iterating.

  /**
   * `for x in want: if prefix + x in labels: want.pop(want.index(x))`, continued from
   * position `i`: after a pop the loop index still advances, so the entry that slid into
   * the popped slot is skipped.
   */
  function PopPass(want: seq<string>, labels: seq<string>, prefix: string, i: nat): seq<string>
    decreases |want| - i
  {
    if i >= |want| then want
    else if prefix + want[i] in labels then PopPass(RemoveFirst(want, want[i]), labels, prefix, i + 1)
    else PopPass(want, labels, prefix, i + 1)
  }

  /** One `PopPass` per listing, in listing order. */
  function Prune(want: seq<string>, listings: seq<seq<string>>, prefix: string): seq<string>
    decreases |listings|
  {
    if listings == [] then want
    else Prune(PopPass(want, listings[0], prefix, 0), listings[1..], prefix)
  }

  /** Some listing carries `prefix + x`. */
  predicate Listed(x: string, listings: seq<seq<string>>, prefix: string) {
    exists j :: 0 <= j < |listings| && prefix + x in listings[j]
  }

  /** The entries whose prefixed form is not in `labels`, in order. */
  function Keep(want: seq<string>, labels: seq<string>, prefix: string): seq<string>
  {
    if want == [] then []
    else (if prefix + want[0] in labels then [] else [want[0]]) + Keep(want[1..], labels, prefix)
  }

  /** The entries that no listing carries, in order: the intended difference. */
  function Unlisted(want: seq<string>, listings: seq<seq<string>>, prefix: string): seq<string>
  {
    if want == [] then []
    else (if Listed(want[0], listings, prefix) then [] else [want[0]]) + Unlisted(want[1..], listings, prefix)
  }

  /** No listing carries two different requested entries. */
  predicate OneMatchEach(want: seq<string>, listings: seq<seq<string>>, prefix: string) {
    forall j, x, y ::
      (0 <= j < |listings| && x in want && y in want
       && prefix + x in listings[j] && prefix + y in listings[j]) ==> x == y
  }

  lemma {:induction false} UnlistedMembers(want: seq<string>, listings: seq<seq<string>>, prefix: string, x: string)
    ensures x in Unlisted(want, listings, prefix) <==> x in want && !Listed(x, listings, prefix)
    decreases |want|
  {
    if want != [] {
      UnlistedMembers(want[1..], listings, prefix, x);
      assert want == [want[0]] + want[1..];
    }
  }

  lemma {:induction false} KeepAppend(a: seq<string>, b: seq<string>, labels: seq<string>, prefix: string)
    ensures Keep(a + b, labels, prefix) == Keep(a, labels, prefix) + Keep(b, labels, prefix)
    decreases |a|
  {
    if a != [] {
      assert (a + b)[1..] == a[1..] + b;
      KeepAppend(a[1..], b, labels, prefix);
    } else {
      assert a + b == b;
    }
  }

  lemma {:induction false} KeepUnmatched(want: seq<string>, labels: seq<string>, prefix: string)
    requires forall j :: 0 <= j < |want| ==> prefix + want[j] !in labels
    ensures Keep(want, labels, prefix) == want
    decreases |want|
  {
    if want != [] {
      KeepUnmatched(want[1..], labels, prefix);
      assert want == [want[0]] + want[1..];
    }
  }

  lemma {:induction false} KeepSub(want: seq<string>, labels: seq<string>, prefix: string)
    ensures forall x :: x in Keep(want, labels, prefix) ==> x in want
    ensures NoDuplicates(want) ==> NoDuplicates(Keep(want, labels, prefix))
    decreases |want|
  {
    if want != [] {
      KeepSub(want[1..], labels, prefix);
      assert want == [want[0]] + want[1..];
      NoDuplicatesCons(want[0], want[1..]);
      var rest := Keep(want[1..], labels, prefix);
      NoDuplicatesCons(want[0], rest);
    }
  }

  lemma {:induction false} UnlistedAfterKeep(want: seq<string>, listings: seq<seq<string>>, prefix: string)
    requires |listings| > 0
    ensures Unlisted(Keep(want, listings[0], prefix), listings[1..], prefix) == Unlisted(want, listings, prefix)
    decreases |want|
  {
    if want != [] {
      var x := want[0];
      UnlistedAfterKeep(want[1..], listings, prefix);
      assert Listed(x, listings, prefix) <==> prefix + x in listings[0] || Listed(x, listings[1..], prefix) by {
        if Listed(x, listings[1..], prefix) {
          var j :| 0 <= j < |listings[1..]| && prefix + x in listings[1..][j];
          assert listings[1..][j] == listings[j + 1];
        }
        if Listed(x, listings, prefix) && prefix + x !in listings[0] {
          var j :| 0 <= j < |listings| && prefix + x in listings[j];
          assert listings[1..][j - 1] == listings[j];
        }
      }
      var k := Keep(want, listings[0], prefix);
      if prefix + x in listings[0] {
        assert k == Keep(want[1..], listings[0], prefix);
      } else {
        assert k == [x] + Keep(want[1..], listings[0], prefix);
        assert k[1..] == Keep(want[1..], listings[0], prefix);
      }
    }
  }

  /** Removing one position from a list without repeats leaves a list without repeats. */
  lemma DropAtNoDuplicates(w: seq<string>, i: nat)
    requires i < |w| && NoDuplicates(w)
    ensures NoDuplicates(w[..i] + w[i + 1..])
    ensures forall y :: y in w[..i] + w[i + 1..] ==> y in w && y != w[i]
  {
    var nl := w[..i] + w[i + 1..];
    forall a, b | 0 <= a < b < |nl| ensures nl[a] != nl[b] {
      var a' := if a < i then a else a + 1;
      var b' := if b < i then b else b + 1;
      assert nl[a] == w[a'] && nl[b] == w[b'];
    }
    forall y | y in nl ensures y in w && y != w[i] {
      var a :| 0 <= a < |nl| && nl[a] == y;
      var a' := if a < i then a else a + 1;
      assert nl[a] == w[a'];
    }
  }

  /** The pop at the one matched position: the rest has no match left and equals `Keep(w)`. */
  lemma PopAtMatch(w: seq<string>, labels: seq<string>, prefix: string, i: nat) returns (nl: seq<string>)
    requires i < |w| && prefix + w[i] in labels
    requires NoDuplicates(w)
    requires forall x, y :: x in w && y in w && prefix + x in labels && prefix + y in labels ==> x == y
    ensures nl == RemoveFirst(w, w[i]) && NoDuplicates(nl)
    ensures forall j :: 0 <= j < |nl| ==> prefix + nl[j] !in labels
    ensures Keep(w, labels, prefix) == nl && Keep(nl, labels, prefix) == nl
  {
    var x := w[i];
    assert IndexOf(w, x) == i;
    nl := w[..i] + w[i + 1..];
    DropAtNoDuplicates(w, i);
    forall j | 0 <= j < |nl| ensures prefix + nl[j] !in labels {
      assert nl[j] in nl;
    }
    KeepUnmatched(nl, labels, prefix);
    assert w == w[..i] + ([x] + w[i + 1..]);
    KeepAppend(w[..i], [x] + w[i + 1..], labels, prefix);
    KeepAppend(w[..i], w[i + 1..], labels, prefix);
    assert Keep([x] + w[i + 1..], labels, prefix) == Keep(w[i + 1..], labels, prefix) by {
      assert ([x] + w[i + 1..])[1..] == w[i + 1..];
    }
  }

  /**
   * With no repeats and at most one requested entry per listing, a pass removes exactly
   * the matched entries: the skip after a pop never hides a second match.
   */
  lemma {:induction false} PopPassExact(w: seq<string>, labels: seq<string>, prefix: string, i: nat)
    requires NoDuplicates(w)
    requires forall x, y :: x in w && y in w && prefix + x in labels && prefix + y in labels ==> x == y
    requires forall j :: 0 <= j < i && j < |w| ==> prefix + w[j] !in labels
    ensures PopPass(w, labels, prefix, i) == Keep(w, labels, prefix)
    decreases |w| - i
  {
    if i >= |w| {
      KeepUnmatched(w, labels, prefix);
    } else if prefix + w[i] in labels {
      var nl := PopAtMatch(w, labels, prefix, i);
      PopPassExact(nl, labels, prefix, i + 1);
    } else {
      PopPassExact(w, labels, prefix, i + 1);
    }
  }

  /** Under the same conditions `Prune` is the plain difference `Unlisted`. */
  lemma {:induction false} PruneExact(want: seq<string>, listings: seq<seq<string>>, prefix: string)
    requires NoDuplicates(want)
    requires OneMatchEach(want, listings, prefix)
    ensures Prune(want, listings, prefix) == Unlisted(want, listings, prefix)
    decreases |listings|
  {
    if listings == [] {
      forall x ensures !Listed(x, listings, prefix) { }
      UnlistedAll(want, listings, prefix);
    } else {
      PopPassExact(want, listings[0], prefix, 0);
      var k := Keep(want, listings[0], prefix);
      KeepSub(want, listings[0], prefix);
      assert OneMatchEach(k, listings[1..], prefix) by {
        forall j, x, y | 0 <= j < |listings[1..]| && x in k && y in k
          && prefix + x in listings[1..][j] && prefix + y in listings[1..][j]
          ensures x == y
        {
          assert listings[1..][j] == listings[j + 1];
        }
      }
      PruneExact(k, listings[1..], prefix);
      UnlistedAfterKeep(want, listings, prefix);
    }
  }

  lemma {:induction false} UnlistedAll(want: seq<string>, listings: seq<seq<string>>, prefix: string)
    requires forall x :: !Listed(x, listings, prefix)
    ensures Unlisted(want, listings, prefix) == want
    decreases |want|
  {
    if want != [] {
      UnlistedAll(want[1..], listings, prefix);
      assert want == [want[0]] + want[1..];
    }
  }

  /** A pass only ever removes entries whose prefixed form is in `labels`. */
  lemma {:induction false} PopPassDropsOnlyMatched(w: seq<string>, labels: seq<string>, prefix: string, i: nat)
    ensures multiset(PopPass(w, labels, prefix, i)) <= multiset(w)
    ensures forall x :: prefix + x !in labels ==> multiset(PopPass(w, labels, prefix, i))[x] == multiset(w)[x]
    decreases |w| - i
  {
    if i < |w| {
      if prefix + w[i] in labels {
        PopPassDropsOnlyMatched(RemoveFirst(w, w[i]), labels, prefix, i + 1);
      } else {
        PopPassDropsOnlyMatched(w, labels, prefix, i + 1);
      }
    }
  }

  /** `Prune` only ever removes entries some listing carries, never adds any. */
  lemma {:induction false} PruneDropsOnlyListed(want: seq<string>, listings: seq<seq<string>>, prefix: string)
    ensures multiset(Prune(want, listings, prefix)) <= multiset(want)
    ensures forall x :: !Listed(x, listings, prefix) ==> multiset(Prune(want, listings, prefix))[x] == multiset(want)[x]
    decreases |listings|
  {
    if listings != [] {
      var p := PopPass(want, listings[0], prefix, 0);
      PopPassDropsOnlyMatched(want, listings[0], prefix, 0);
      PruneDropsOnlyListed(p, listings[1..], prefix);
      forall x | !Listed(x, listings, prefix)
        ensures multiset(Prune(want, listings, prefix))[x] == multiset(want)[x]
      {
        assert prefix + x !in listings[0];
        assert !Listed(x, listings[1..], prefix);
      }
    }
  }

  // ---------------------------------------------------------------------------------------
  // The two diffs.

  /** The `RepoTags` of each image, in listing order. */
  function TagLists(images: seq<Image>): seq<seq<string>>
  {
    seq(|images|, i requires 0 <= i < |images| => images[i].repoTags)
  }

  /** The `Names` of each container, in listing order. */
  function NameLists(cs: seq<Container>): seq<seq<string>>
  {
    seq(|cs|, i requires 0 <= i < |cs| => cs[i].names)
  }

  /** `get_images_to_install` on an image listing. */
  function ImagesToInstall(images: seq<Image>, inputs: seq<string>): seq<string> {
    Prune(Collect(inputs, ImageFor), TagLists(images), "")
  }

  /** `get_containers_to_create` on an all-containers listing. */
  function ContainersToCreate(cs: seq<Container>, inputs: seq<string>): seq<string> {
    Prune(Collect(inputs, ContainerFor), NameLists(cs), "/")
  }

  /** On an engine without images or containers, everything requested is reported missing. */
  lemma EmptyEngineDiffs(images: seq<Image>, cs: seq<Container>, inputs: seq<string>)
    requires images == [] && cs == []
    ensures ImagesToInstall(images, inputs) == Collect(inputs, ImageFor)
    ensures ContainersToCreate(cs, inputs) == Collect(inputs, ContainerFor)
  {
    assert TagLists(images) == [] && NameLists(cs) == [];
  }

  lemma ListedTag(images: seq<Image>, x: string)
    ensures Listed(x, TagLists(images), "") <==> HasTag(images, x)
  {
    assert "" + x == x;
    var ls := TagLists(images);
    assert |ls| == |images| && forall i :: 0 <= i < |images| ==> ls[i] == images[i].repoTags;
  }

  lemma ListedName(cs: seq<Container>, x: string)
    ensures Listed(x, NameLists(cs), "/") <==> HasName(cs, x)
  {
    var ls := NameLists(cs);
    assert |ls| == |cs| && forall i :: 0 <= i < |cs| ==> ls[i] == cs[i].names;
  }

  /** No image carries the tags of two different catalog images. */
  predicate NoImageTagsTwo(images: seq<Image>) {
    forall i, x, y ::
      (0 <= i < |images| && x in RequiredDockerImages && y in RequiredDockerImages
       && x in images[i].repoTags && y in images[i].repoTags) ==> x == y
  }

  /** No container carries the names of two different catalog containers. */
  predicate NoContainerNamedTwice(cs: seq<Container>) {
    forall i, x, y ::
      (0 <= i < |cs| && x in RequiredDockerContainers && y in RequiredDockerContainers
       && "/" + x in cs[i].names && "/" + y in cs[i].names) ==> x == y
  }

  /**
   * For distinct inputs, where no image lists two catalog tags, the images to pull are the
   * requested images, in input order, minus those some image already carries.
   */
  lemma ImagesToInstallExact(images: seq<Image>, inputs: seq<string>)
    requires NoDuplicates(inputs)
    requires NoImageTagsTwo(images)
    ensures ImagesToInstall(images, inputs) == Unlisted(Collect(inputs, ImageFor), TagLists(images), "")
    ensures forall x ::
      x in ImagesToInstall(images, inputs) <==> (x in Collect(inputs, ImageFor) && !HasTag(images, x))
  {
    var want := Collect(inputs, ImageFor);
    forall a, b ensures ImageFor(a).Some? && ImageFor(a) == ImageFor(b) ==> a == b { CatalogInjective(a, b); }
    CollectNoDuplicates(inputs, ImageFor);
    assert OneMatchEach(want, TagLists(images), "") by {
      forall j, x, y | 0 <= j < |TagLists(images)| && x in want && y in want
        && "" + x in TagLists(images)[j] && "" + y in TagLists(images)[j]
        ensures x == y
      {
        CollectMembers(inputs, ImageFor, x);
        CollectMembers(inputs, ImageFor, y);
        assert "" + x == x && "" + y == y;
      }
    }
    PruneExact(want, TagLists(images), "");
    forall x ensures x in ImagesToInstall(images, inputs) <==> x in want && !HasTag(images, x) {
      UnlistedMembers(want, TagLists(images), "", x);
      ListedTag(images, x);
    }
  }

  /** A requested image that no image carries is always in the result; nothing else is added. */
  lemma ImagesToInstallKeepsMissing(images: seq<Image>, inputs: seq<string>)
    ensures forall x :: x in ImagesToInstall(images, inputs) ==> x in Collect(inputs, ImageFor)
    ensures forall x :: x in Collect(inputs, ImageFor) && !HasTag(images, x) ==> x in ImagesToInstall(images, inputs)
  {
    var want := Collect(inputs, ImageFor);
    PruneDropsOnlyListed(want, TagLists(images), "");
    forall x | x in want && !HasTag(images, x) ensures x in ImagesToInstall(images, inputs) {
      ListedTag(images, x);
    }
    forall x | x in ImagesToInstall(images, inputs) ensures x in want {
      assert multiset(ImagesToInstall(images, inputs))[x] > 0;
    }
  }

  /**
   * For distinct inputs, where no container carries two catalog names, the containers to
   * create are the requested ones that no container, running or stopped, is named after.
   */
  lemma ContainersToCreateExact(cs: seq<Container>, inputs: seq<string>)
    requires NoDuplicates(inputs)
    requires NoContainerNamedTwice(cs)
    ensures ContainersToCreate(cs, inputs) == Unlisted(Collect(inputs, ContainerFor), NameLists(cs), "/")
    ensures forall x ::
      x in ContainersToCreate(cs, inputs) <==> (x in Collect(inputs, ContainerFor) && !HasName(cs, x))
  {
    var want := Collect(inputs, ContainerFor);
    forall a, b ensures ContainerFor(a).Some? && ContainerFor(a) == ContainerFor(b) ==> a == b { CatalogInjective(a, b); }
    CollectNoDuplicates(inputs, ContainerFor);
    assert OneMatchEach(want, NameLists(cs), "/") by {
      forall j, x, y | 0 <= j < |NameLists(cs)| && x in want && y in want
        && "/" + x in NameLists(cs)[j] && "/" + y in NameLists(cs)[j]
        ensures x == y
      {
        CollectMembers(inputs, ContainerFor, x);
        CollectMembers(inputs, ContainerFor, y);
      }
    }
    PruneExact(want, NameLists(cs), "/");
    forall x ensures x in ContainersToCreate(cs, inputs) <==> x in want && !HasName(cs, x) {
      UnlistedMembers(want, NameLists(cs), "/", x);
      ListedName(cs, x);
    }
  }

  /** A requested container that no container is named after is always in the result. */
  lemma ContainersToCreateKeepsAbsent(cs: seq<Container>, inputs: seq<string>)
    ensures forall x :: x in ContainersToCreate(cs, inputs) ==> x in Collect(inputs, ContainerFor)
    ensures forall x :: x in Collect(inputs, ContainerFor) && !HasName(cs, x) ==> x in ContainersToCreate(cs, inputs)
  {
    var want := Collect(inputs, ContainerFor);
    PruneDropsOnlyListed(want, NameLists(cs), "/");
    forall x | x in want && !HasName(cs, x) ensures x in ContainersToCreate(cs, inputs) {
      ListedName(cs, x);
    }
    forall x | x in ContainersToCreate(cs, inputs) ensures x in want {
      assert multiset(ContainersToCreate(cs, inputs))[x] > 0;
    }
  }

  /** Requesting an input twice leaves its image in the result although it is pulled. */
  lemma RepeatedInputSurvives()
    ensures ImagesToInstall([Image([PostgisImage])], [PostgisInput, PostgisInput]) == [PostgisImage]
  {
    var want := [PostgisImage, PostgisImage];
    var tags := [PostgisImage];
    CollectTwo(PostgisInput, PostgisInput);
    PopFirstOfTwo(PostgisImage, PostgisImage, tags);
    assert TagLists([Image(tags)]) == [tags];
    PruneOne(want, tags, "");
  }

  /** An image tagged for two catalog images hides the second one from the pass. */
  lemma SharedImageSkipsSecond()
    ensures ImagesToInstall([Image([PostgisImage, GeoserverImage])], [PostgisInput, GeoserverInput]) == [GeoserverImage]
  {
    var want := [PostgisImage, GeoserverImage];
    var tags := [PostgisImage, GeoserverImage];
    CollectTwo(PostgisInput, GeoserverInput);
    PopFirstOfTwo(PostgisImage, GeoserverImage, tags);
    assert TagLists([Image(tags)]) == [tags];
    PruneOne(want, tags, "");
  }

  lemma CollectTwo(a: string, b: string)
    requires a in AllDockerInputs && b in AllDockerInputs
    ensures Collect([a, b], ImageFor) == [ImageFor(a).value, ImageFor(b).value]
  {
    assert [a, b][..1] == [a];
    assert [a][..0] == [];
  }

  lemma PopFirstOfTwo(x: string, y: string, tags: seq<string>)
    requires x in tags
    ensures PopPass([x, y], tags, "", 0) == [y]
  {
    assert "" + x == x;
    assert IndexOf([x, y], x) == 0;
    assert RemoveFirst([x, y], x) == [y];
  }

  lemma PruneOne(want: seq<string>, tags: seq<string>, prefix: string)
    ensures Prune(want, [tags], prefix) == PopPass(want, tags, prefix, 0)
  {
    assert [tags][1..] == [];
  }

  // ---------------------------------------------------------------------------------------
  // Status.

  /** The `if`/`elif` chain of the status builders: only the first catalog name found counts. */
  function FirstMatch(names: seq<string>): (r: Option<string>)
    ensures r.Some? ==> r.value in RequiredDockerContainers && "/" + r.value in names
    ensures r.None? ==> forall k :: k in RequiredDockerContainers ==> "/" + k !in names
    ensures r == Some(GeoserverContainer) ==> "/" + PostgisContainer !in names
    ensures r == Some(N52WpsContainer) ==> "/" + PostgisContainer !in names && "/" + GeoserverContainer !in names
  {
    if "/" + PostgisContainer in names then Some(PostgisContainer)
    else if "/" + GeoserverContainer in names then Some(GeoserverContainer)
    else if "/" + N52WpsContainer in names then Some(N52WpsContainer)
    else None
  }

  /** Some container of the listing counts for catalog name `k`. */
  predicate Installed(k: string, cs: seq<Container>) {
    exists c :: c in cs && FirstMatch(c.names) == Some(k)
  }

  /** One loop of `get_docker_container_status`: every counted name is set to `v`. */
  function Mark(m: map<string, bool>, cs: seq<Container>, v: bool): map<string, bool>
    decreases |cs|
  {
    if cs == [] then m
    else
      var m' := Mark(m, cs[..|cs| - 1], v);
      match FirstMatch(cs[|cs| - 1].names)
      case Some(k) => m'[k := v]
      case None => m'
  }

  /** `get_docker_container_status`: False from the all listing, then True from the running one. */
  function StatusMap(all: seq<Container>, running: seq<Container>): map<string, bool> {
    Mark(Mark(map[], all, false), running, true)
  }

  lemma {:induction false} MarkMeaning(m: map<string, bool>, cs: seq<Container>, v: bool, k: string)
    ensures k in Mark(m, cs, v) <==> k in m || Installed(k, cs)
    ensures Installed(k, cs) ==> Mark(m, cs, v)[k] == v
    ensures !Installed(k, cs) && k in m ==> Mark(m, cs, v)[k] == m[k]
    decreases |cs|
  {
    if cs != [] {
      var init := cs[..|cs| - 1];
      var last := cs[|cs| - 1];
      assert cs == init + [last];
      MarkMeaning(m, init, v, k);
      assert Installed(k, cs) <==> Installed(k, init) || FirstMatch(last.names) == Some(k) by {
        if Installed(k, cs) {
          var c :| c in cs && FirstMatch(c.names) == Some(k);
          if c != last { assert c in init; }
        }
        if Installed(k, init) {
          var c :| c in init && FirstMatch(c.names) == Some(k);
          assert c in cs;
        }
      }
    }
  }

  /**
   * The status map has only catalog names as keys; a name is a key iff some container of
   * either listing counts for it, and its value is True iff one of the running listing does.
   */
  lemma StatusMapMeaning(all: seq<Container>, running: seq<Container>, k: string)
    ensures k in StatusMap(all, running) <==> Installed(k, all) || Installed(k, running)
    ensures k in StatusMap(all, running) ==> k in RequiredDockerContainers
    ensures k in StatusMap(all, running) ==> (StatusMap(all, running)[k] <==> Installed(k, running))
  {
    MarkMeaning(map[], all, false, k);
    MarkMeaning(Mark(map[], all, false), running, true, k);
    if Installed(k, all) {
      var c :| c in all && FirstMatch(c.names) == Some(k);
    }
    if Installed(k, running) {
      var c :| c in running && FirstMatch(c.names) == Some(k);
    }
  }

  /** The running listing can add a key the all listing never produced. */
  lemma RunningListingAddsKey()
    ensures var c := Container(["/" + PostgisContainer], PostgisImage, map[], true, "", map[]);
      StatusMap([], [c]) == map[PostgisContainer := true]
  {
    var c := Container(["/" + PostgisContainer], PostgisImage, map[], true, "", map[]);
    assert [c][..0] == [];
    assert FirstMatch(c.names) == Some(PostgisContainer);
    assert Mark(map[], [], false) == map[];
    assert Mark(map[], [c], true) == map[][PostgisContainer := true];
  }

  /** A container named after two catalog containers counts only for the first. */
  lemma TwoNamesCountOnce()
    ensures var c := Container(["/" + GeoserverContainer, "/" + PostgisContainer], GeoserverImage, map[], false, "", map[]);
      StatusMap([c], []) == map[PostgisContainer := false]
  {
    var c := Container(["/" + GeoserverContainer, "/" + PostgisContainer], GeoserverImage, map[], false, "", map[]);
    assert [c][..0] == [];
    assert "/" + PostgisContainer in c.names;
    assert FirstMatch(c.names) == Some(PostgisContainer);
    assert Mark(map[], [c], false) == map[][PostgisContainer := false];
  }

  /** The three-way reading of a status map used by `docker_status`. */
  datatype ServiceState = Running | Stopped | NotInstalled

  function Reading(status: map<string, bool>, name: string): ServiceState {
    if name in status && status[name] then Running
    else if name in status && !status[name] then Stopped
    else NotInstalled
  }

  /** The status map as the engine reports it: both listings taken from the same inventory. */
  function Status(cs: seq<Container>): map<string, bool> {
    StatusMap(cs, RunningOnly(cs))
  }

  function StateOf(cs: seq<Container>, name: string): ServiceState {
    Reading(Status(cs), name)
  }

  /**
   * Against the engine's own listings a catalog service reads Running iff a running
   * container counts for it, Not Installed iff no container counts for it, and Stopped
   * otherwise: Running implies installed.
   */
  lemma StateOfMeaning(cs: seq<Container>, k: string)
    ensures StateOf(cs, k) == Running <==> exists c :: c in cs && c.running && FirstMatch(c.names) == Some(k)
    ensures StateOf(cs, k) == NotInstalled <==> !Installed(k, cs)
    ensures StateOf(cs, k) == Stopped <==> Installed(k, cs) && !Installed(k, RunningOnly(cs))
    ensures StateOf(cs, k) != NotInstalled ==> k in RequiredDockerContainers
  {
    StatusMapMeaning(cs, RunningOnly(cs), k);
    if Installed(k, RunningOnly(cs)) {
      var c :| c in RunningOnly(cs) && FirstMatch(c.names) == Some(k);
      assert c in cs;
    }
    if exists c :: c in cs && c.running && FirstMatch(c.names) == Some(k) {
      var c :| c in cs && c.running && FirstMatch(c.names) == Some(k);
      assert c in RunningOnly(cs);
    }
  }

  // ---------------------------------------------------------------------------------------
  // Container records.

  /** `get_docker_container_dicts`: each counted name mapped to its container, later ones overwrite. */
  function Dicts(cs: seq<Container>): map<string, Container>
    decreases |cs|
  {
    if cs == [] then map[]
    else
      var m := Dicts(cs[..|cs| - 1]);
      match FirstMatch(cs[|cs| - 1].names)
      case Some(k) => m[k := cs[|cs| - 1]]
      case None => m
  }

  /** A name has a record iff some container counts for it; the record is the last such container. */
  lemma {:induction false} DictsMeaning(cs: seq<Container>, k: string)
    ensures k in Dicts(cs) <==> Installed(k, cs)
    ensures k in Dicts(cs) ==>
      exists i :: (0 <= i < |cs| && cs[i] == Dicts(cs)[k] && FirstMatch(cs[i].names) == Some(k)
        && forall j :: i < j < |cs| ==> FirstMatch(cs[j].names) != Some(k))
    decreases |cs|
  {
    if cs != [] {
      var n := |cs| - 1;
      var init := cs[..n];
      DictsMeaning(init, k);
      assert cs == init + [cs[n]];
      assert Installed(k, cs) <==> Installed(k, init) || FirstMatch(cs[n].names) == Some(k) by {
        if Installed(k, cs) {
          var c :| c in cs && FirstMatch(c.names) == Some(k);
          if c != cs[n] { assert c in init; }
        }
        if Installed(k, init) {
          var c :| c in init && FirstMatch(c.names) == Some(k);
          assert c in cs;
        }
      }
      if FirstMatch(cs[n].names) != Some(k) && k in Dicts(cs) {
        var i :| 0 <= i < |init| && init[i] == Dicts(init)[k]
          && FirstMatch(init[i].names) == Some(k)
          && forall j :: i < j < |init| ==> FirstMatch(init[j].names) != Some(k);
        assert cs[i] == init[i];
        forall j | i < j < |cs| ensures FirstMatch(cs[j].names) != Some(k) {
          if j < n { assert cs[j] == init[j]; }
        }
      }
    }
  }

  // ---------------------------------------------------------------------------------------
  // The reconciler as the source runs it against the client.

  /** The inner loop shared by both diffs: pop matched entries while iterating. */
  method PopMatched(want: seq<string>, labels: seq<string>, prefix: string) returns (rest: seq<string>)
    ensures rest == PopPass(want, labels, prefix, 0)
  {
    rest := want;
    var i := 0;
    while i < |rest|
      invariant PopPass(want, labels, prefix, 0) == PopPass(rest, labels, prefix, i)
      decreases |rest| - i
    {
      if prefix + rest[i] in labels {
        var k := IndexOf(rest, rest[i]);
        rest := rest[..k] + rest[k + 1..];
      }
      i := i + 1;
    }
  }

  method GetImagesToInstall(client: Client, inputs: seq<string>) returns (toInstall: seq<string>)
    ensures toInstall == ImagesToInstall(client.images, inputs)
  {
    toInstall := [];
    for i := 0 to |inputs|
      invariant toInstall == Collect(inputs[..i], ImageFor)
    {
      assert inputs[..i + 1][..i] == inputs[..i];
      if inputs[i] == PostgisInput {
        toInstall := toInstall + [PostgisImage];
      } else if inputs[i] == GeoserverInput {
        toInstall := toInstall + [GeoserverImage];
      } else if inputs[i] == N52WpsInput {
        toInstall := toInstall + [N52WpsImage];
      }
    }
    assert inputs[..|inputs|] == inputs;
    var images := client.Images();
    ghost var lists := TagLists(images);
    for j := 0 to |images|
      invariant Prune(Collect(inputs, ImageFor), lists, "") == Prune(toInstall, lists[j..], "")
    {
      assert lists[j..][1..] == lists[j + 1..];
      toInstall := PopMatched(toInstall, images[j].repoTags, "");
    }
  }

  method GetContainersToCreate(client: Client, inputs: seq<string>) returns (toCreate: seq<string>)
    ensures toCreate == ContainersToCreate(client.containers, inputs)
  {
    toCreate := [];
    for i := 0 to |inputs|
      invariant toCreate == Collect(inputs[..i], ContainerFor)
    {
      assert inputs[..i + 1][..i] == inputs[..i];
      if inputs[i] == PostgisInput {
        toCreate := toCreate + [PostgisContainer];
      } else if inputs[i] == GeoserverInput {
        toCreate := toCreate + [GeoserverContainer];
      } else if inputs[i] == N52WpsInput {
        toCreate := toCreate + [N52WpsContainer];
      }
    }
    assert inputs[..|inputs|] == inputs;
    var cs := client.Containers(true);
    ghost var lists := NameLists(cs);
    for j := 0 to |cs|
      invariant Prune(Collect(inputs, ContainerFor), lists, "/") == Prune(toCreate, lists[j..], "/")
    {
      assert lists[j..][1..] == lists[j + 1..];
      toCreate := PopMatched(toCreate, cs[j].names, "/");
    }
  }

  /** The `if`/`elif` chain applied to one container, as in both status builders. */
  method MatchCatalog(names: seq<string>) returns (r: Option<string>)
    ensures r == FirstMatch(names)
  {
    if "/" + PostgisContainer in names {
      r := Some(PostgisContainer);
    } else if "/" + GeoserverContainer in names {
      r := Some(GeoserverContainer);
    } else if "/" + N52WpsContainer in names {
      r := Some(N52WpsContainer);
    } else {
      r := None;
    }
  }

  method GetDockerContainerDicts(client: Client) returns (dicts: map<string, Container>)
    ensures dicts == Dicts(client.containers)
  {
    var cs := client.Containers(true);
    dicts := map[];
    for i := 0 to |cs|
      invariant dicts == Dicts(cs[..i])
    {
      assert cs[..i + 1][..i] == cs[..i];
      var k := MatchCatalog(cs[i].names);
      if k.Some? {
        dicts := dicts[k.value := cs[i]];
      }
    }
    assert cs[..|cs|] == cs;
  }

  method GetDockerContainerStatus(client: Client) returns (status: map<string, bool>)
    ensures status == Status(client.containers)
  {
    var running := client.Containers(false);
    var all := client.Containers(true);
    status := MarkListing(map[], all, false);
    status := MarkListing(status, running, true);
  }

  /** One marking loop of `get_docker_container_status`: each counted name gets the value `v`. */
  method MarkListing(m: map<string, bool>, cs: seq<Container>, v: bool) returns (r: map<string, bool>)
    ensures r == Mark(m, cs, v)
  {
    r := m;
    for i := 0 to |cs|
      invariant r == Mark(m, cs[..i], v)
    {
      assert cs[..i + 1][..i] == cs[..i];
      var k := MatchCatalog(cs[i].names);
      if k.Some? {
        r := r[k.value := v];
      }
    }
    assert cs[..|cs|] == cs;
  }
}
