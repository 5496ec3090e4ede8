/** When an incremental release does not equal a full rebuild: builds that succeed and deploy a stale digest,
    and the conditions without which there are such builds (scripts/build-release-manifest.py). */
module StaleReleases {
  import opened Common
  import opened ReleaseInputs
  import opened Release

  function NamesOf(sel: Selector): set<string> {
    set image | image in sel :: FullName(image)
  }

  lemma NamesOfMeaning(sel: Selector, name: string)
    ensures name in NamesOf(sel) <==> Registered(sel, name)
  {
  }

  /** All of the names with one digest. */
  ghost function Uniform(names: set<string>, digest: Digest): (m: map<string, Digest>)
    ensures m.Keys == names && forall name :: name in names ==> m[name] == digest
  {
    MapOf(names, (name: string) => digest)
  }

  /** A history of two commits and two builds. The second commit changes `file`, which decides the digest of
      the image `stale`; `rest` is the rest of the tree. The first build publishes all images of its
      selector, the second all of its own but `stale`, which it takes from the first. */
  datatype Story = Story(
    glob: (string, string) -> bool, printed: Path -> string, first: Selector, second: Selector, stale: Image,
    file: Path, rest: Tree, base: CommitId, head: CommitId, tag: string, key: string, before: Digest, after: Digest)
  {
    function Name(): string {
      FullName(stale)
    }

    function TreeAt(c: CommitId): Tree {
      rest[file := if c == head then head else base]
    }

    function Others(): set<string> {
      NamesOf(second) - {Name()}
    }
  }

  /** `file` is an input of `stale`, and the second build does not see its change: because `stale` has left
      the selector, or because the printed name does not match. */
  ghost predicate StoryOk(y: Story) {
    && y.base != y.head && y.before != y.after && y.stale in y.first && y.Others() != {}
    && (forall image :: image in y.first + y.second && FullName(image) == y.Name() ==> Matches(y.glob, image, y.file))
    && (forall image :: image in y.second && FullName(image) == y.Name() ==> !Matches(y.glob, image, y.printed(y.file)))
  }

  function StoryWorld(y: Story): World {
    World(y.glob, y.printed, (c: CommitId) => y.TreeAt(c),
          (c: CommitId) => if c == y.head then [y.base] else [],
          (a: CommitId, c: CommitId) => a == c || (a == y.base && c == y.head),
          (n: string, t: Tree) => if n == y.Name() && y.file in t && t[y.file] == y.head then y.after else y.before)
  }

  function StoryRefs(y: Story): map<string, Ref> {
    map[y.key := Ref(y.Name(), y.before)]
  }

  function StoryInputs(y: Story, sel: Selector, c: CommitId, pub: Publication): Inputs {
    Inputs(sel, c, pub, map[y.key := Unpinned(y.Name())], {Ref(y.Name(), y.before)}, None)
  }

  ghost function FirstInputs(y: Story): Inputs {
    StoryInputs(y, y.first, y.base, Publication(y.base, Commit(y.base), y.base, Uniform(NamesOf(y.first), y.before)))
  }

  ghost function FirstManifest(y: Story): Manifest {
    Manifest(y.base, Uniform(NamesOf(y.first), y.before), StoryRefs(y), StoryRefs(y), false)
  }

  ghost function SecondInputs(y: Story): Inputs {
    StoryInputs(y, y.second, y.head, Publication(y.head, Tag(y.tag), y.base, Uniform(y.Others(), y.before)))
  }

  ghost function SecondManifest(y: Story): Manifest {
    Manifest(y.head, Uniform(y.Others(), y.before), StoryRefs(y), StoryRefs(y), false)
  }

  lemma StoryAncestry(y: Story)
    requires y.base != y.head
    ensures AncestryOk(StoryWorld(y)) && StoryWorld(y).parents(y.head) == [y.base]
  {
  }

  lemma StoryName(y: Story)
    ensures IsRepository(y.Name()) && (y.stale in y.first ==> y.Name() in NamesOf(y.first))
  {
  }

  /** Nothing changes between a commit and itself, and between the two commits only `file` does. */
  lemma StoryDiffs(y: Story, c: CommitId)
    requires y.base != y.head
    ensures Diff(y.TreeAt(c), y.TreeAt(c)) == {}
    ensures Diff(y.TreeAt(y.base), y.TreeAt(y.head)) == {y.file}
  {
    OneChange(y.rest, y.file, y.base, y.head);
  }

  /** The digests are reproducible: `file` is an input of the one image whose digest it decides. */
  lemma StoryReproducible(y: Story, sel: Selector)
    requires forall image :: image in sel && FullName(image) == y.Name() ==> Matches(y.glob, image, y.file)
    ensures Reproducible(StoryWorld(y), sel)
  {
    var w := StoryWorld(y);
    forall image, s: Tree, t: Tree | image in sel && InputsOf(w, image, s) == InputsOf(w, image, t)
      ensures w.digest(FullName(image), s) == w.digest(FullName(image), t)
    {
      if FullName(image) == y.Name() {
        assert IsInput(w, image, y.file);
        InputAt(w, image, s, y.file);
        InputAt(w, image, t, y.file);
      }
    }
  }

  lemma InputAt(w: World, image: Image, t: Tree, p: Path)
    requires IsInput(w, image, p)
    ensures var inputs := InputsOf(w, image, t); (p in inputs <==> p in t) && (p in t ==> inputs[p] == t[p])
  {
  }

  /** Values that name one repository image, which is all that is rendered. */
  ghost predicate OneImage(b: Inputs, base: map<string, Digest>, key: string, ref: Ref) {
    && IsRepository(ref.name) && b.values == map[key := Unpinned(ref.name)] && b.rendered == {ref} && b.extra.None?
    && (ref.name in b.publication.images || ref.name in base)
    && DigestFor(ref.name, b.publication.images, base) == ref.digest
  }

  lemma OneImageResolves(b: Inputs, base: map<string, Digest>, key: string, ref: Ref)
    requires OneImage(b, base, key, ref)
    ensures Required(b.values) == {ref.name}
    ensures forall k :: k in b.values ==> k == key && Resolvable(b.values[k], b.publication.images, base)
    ensures Resolved(b.values, b.publication.images, base) == map[key := ref]
    ensures Merged(b.values, map[key := ref]) == map[key := ref]
  {
    var value := b.values[key];
    assert NamesRepository(value) && NameOf(value) == ref.name && Resolvable(value, b.publication.images, base);
  }

  lemma OneImageAssembles(b: Inputs, base: map<string, Digest>, key: string, ref: Ref)
    requires OneImage(b, base, key, ref)
    ensures Required(b.values) == {ref.name}
    ensures Assemble(b, base) == Ok(Manifest(b.commit, b.publication.images, map[key := ref], map[key := ref], false))
  {
    var overlay := map[key := ref];
    OneImageResolves(b, base, key, ref);
    assert overlay[key] in overlay.Values;
    assert overlay - (set k | k in overlay && overlay[k] !in b.rendered) == overlay;
  }

  /** A build whose checks all pass is its assembly. */
  lemma BuildAssembles(w: World, registry: map<string, Manifest>, b: Inputs, base: map<string, Digest>)
    requires b.publication.images.Keys != {} && AllRegistered(b.sel, b.publication.images.Keys)
    requires ImageSourceBoundary(w, b.sel, b.publication.commit, b.commit).Ok?
    requires BaseReleaseImages(w, registry, b.sel, b.publication, Required(b.values)) == Ok(base)
    ensures Build(w, registry, b) == Assemble(b, base)
  {
  }

  /** A build of the story names the one image, with the digest it had at first. */
  lemma StoryAssembles(y: Story, sel: Selector, c: CommitId, pub: Publication, base: map<string, Digest>)
    requires y.Name() in pub.images || y.Name() in base
    requires DigestFor(y.Name(), pub.images, base) == y.before
    ensures Required(StoryInputs(y, sel, c, pub).values) == {y.Name()}
    ensures Assemble(StoryInputs(y, sel, c, pub), base) == Ok(Manifest(c, pub.images, StoryRefs(y), StoryRefs(y), false))
  {
    StoryName(y);
    OneImageAssembles(StoryInputs(y, sel, c, pub), base, y.key, Ref(y.Name(), y.before));
  }

  lemma StoryBoundary(y: Story, sel: Selector, c: CommitId)
    requires y.base != y.head
    ensures ImageSourceBoundary(StoryWorld(y), sel, c, c).Ok?
  {
    StoryDiffs(y, c);
    NothingAffectedIfUntouched(StoryWorld(y), sel, {});
  }

  lemma UniformRegistered(sel: Selector, names: set<string>, digest: Digest)
    requires names <= NamesOf(sel)
    ensures AllRegistered(sel, Uniform(names, digest).Keys)
  {
  }

  lemma FirstBuild(y: Story)
    requires StoryOk(y)
    ensures Build(StoryWorld(y), map[], FirstInputs(y)) == Ok(FirstManifest(y))
  {
    var b := FirstInputs(y);
    StoryName(y);
    StoryBoundary(y, y.first, y.base);
    UniformRegistered(y.first, NamesOf(y.first), y.before);
    StoryAssembles(y, y.first, y.base, b.publication, map[]);
    BuildAssembles(StoryWorld(y), map[], b, map[]);
  }

  /** The digests of the story before the change, and of all other images after it. */
  lemma StoryDigests(y: Story, name: string)
    requires y.base != y.head
    ensures StoryWorld(y).digest(name, y.TreeAt(y.base)) == y.before
    ensures StoryWorld(y).digest(name, y.TreeAt(y.head)) == if name == y.Name() then y.after else y.before
  {
  }

  lemma UniformFresh(y: Story, names: set<string>, c: CommitId)
    requires y.base != y.head && (c == y.base || (c == y.head && y.Name() !in names))
    ensures Fresh(StoryWorld(y), Uniform(names, y.before), c)
  {
    forall name | name in names
      ensures StoryWorld(y).digest(name, y.TreeAt(c)) == y.before
    {
      StoryDigests(y, name);
    }
  }

  lemma FirstInputsOk(y: Story)
    requires StoryOk(y)
    ensures InputsOk(StoryWorld(y), FirstInputs(y)) && AllRegistered(y.first, Required(FirstInputs(y).values))
  {
    StoryName(y);
    UniformFresh(y, NamesOf(y.first), y.base);
    StoryReproducible(y, y.first);
    StoryAssembles(y, y.first, y.base, FirstInputs(y).publication, map[]);
    NamesOfMeaning(y.first, y.Name());
    StoryRefFresh(y);
  }

  lemma StoryRefFresh(y: Story)
    requires y.base != y.head
    ensures FreshRef(StoryWorld(y), Ref(y.Name(), y.before), y.base)
    ensures y.before != y.after ==> !FreshRef(StoryWorld(y), Ref(y.Name(), y.before), y.head)
  {
    StoryName(y);
    StoryDigests(y, y.Name());
  }

  lemma FirstIsFresh(y: Story)
    requires StoryOk(y)
    ensures FreshRelease(StoryWorld(y), FirstManifest(y))
  {
    StoryName(y);
    UniformFresh(y, NamesOf(y.first), y.base);
    StoryRefFresh(y);
  }

  /** The first release hands all of its images on. */
  lemma FirstHandsOn(y: Story, published: set<string>)
    requires StoryOk(y)
    ensures BaseImages(FirstManifest(y), {y.Name()}, published) == Some(Uniform(NamesOf(y.first), y.before))
  {
    StoryName(y);
    var base, images := FirstManifest(y), Uniform(NamesOf(y.first), y.before);
    var keys := set k | k in base.images && Counts(base, k);
    assert base.images.Keys == {y.key} && keys <= {y.key};
    AddsDetermines(images, base.images, keys, images);
    var more := set k | k in base.releaseValues && base.releaseValues[k].name in ({y.Name()} - images.Keys - published);
    assert more == {};
    AddsDetermines(images, base.releaseValues, {}, images);
  }

  /** When every image that the diff touches is published, everything the base names is handed on. */
  lemma BaseHandsOn(w: World, registry: map<string, Manifest>, sel: Selector, pub: Publication, required: set<string>, tag: string)
    requires pub.baseRef == Tag(tag) && tag in registry && registry[tag].commit == pub.baseRefCommit
    requires w.isAncestor(pub.baseRefCommit, pub.commit)
    requires forall image :: image in sel && Touched(w, image, Diff(w.tree(pub.baseRefCommit), w.tree(pub.commit))) ==>
               FullName(image) in pub.images
    requires BaseImages(registry[tag], required, pub.images.Keys).Some?
    ensures BaseReleaseImages(w, registry, sel, pub, required)
         == Ok(BaseImages(registry[tag], required, pub.images.Keys).value)
  {
    var diff := Diff(w.tree(pub.baseRefCommit), w.tree(pub.commit));
    AffectedIsTouched(w, sel, diff);
    FilterUniform((image: Image) => FullName(image) !in pub.images, AffectedImages(w, sel, diff));
  }

  lemma SecondBase(y: Story)
    requires StoryOk(y)
    ensures BaseReleaseImages(StoryWorld(y), map[y.tag := FirstManifest(y)], y.second, SecondInputs(y).publication, {y.Name()})
         == Ok(Uniform(NamesOf(y.first), y.before))
  {
    var w, pub := StoryWorld(y), SecondInputs(y).publication;
    StoryDiffs(y, y.head);
    forall image | image in y.second && Touched(w, image, {y.file})
      ensures FullName(image) in pub.images
    {
      assert IsSeen(w, image, y.file);
    }
    FirstHandsOn(y, pub.images.Keys);
    BaseHandsOn(w, map[y.tag := FirstManifest(y)], y.second, pub, {y.Name()}, y.tag);
  }

  lemma SecondBuild(y: Story)
    requires StoryOk(y)
    ensures Build(StoryWorld(y), map[y.tag := FirstManifest(y)], SecondInputs(y)) == Ok(SecondManifest(y))
  {
    var b := SecondInputs(y);
    StoryName(y);
    StoryBoundary(y, y.second, y.head);
    UniformRegistered(y.second, y.Others(), y.before);
    StoryAssembles(y, y.second, y.head, b.publication, Uniform(NamesOf(y.first), y.before));
    SecondBase(y);
    BuildAssembles(StoryWorld(y), map[y.tag := FirstManifest(y)], b, Uniform(NamesOf(y.first), y.before));
  }

  lemma SecondInputsOk(y: Story)
    requires StoryOk(y)
    ensures InputsOk(StoryWorld(y), SecondInputs(y))
  {
    UniformFresh(y, y.Others(), y.head);
    StoryReproducible(y, y.second);
  }

  lemma SecondIsStale(y: Story)
    requires StoryOk(y)
    ensures !FreshRelease(StoryWorld(y), SecondManifest(y))
  {
    StoryRefFresh(y);
    assert !FreshRef(StoryWorld(y), SecondManifest(y).releaseValues[y.key], y.head);
  }

  /** The two builds from no release at all: the first release is fresh, the second build succeeds, and it
      deploys the digest that the image no longer has. */
  ghost predicate GoesStale(y: Story) {
    var w, b, c := StoryWorld(y), FirstInputs(y), SecondInputs(y);
    && AncestryOk(w) && w.parents(y.head) == [y.base] && InputsOk(w, b) && InputsOk(w, c)
    && AllRegistered(b.sel, Required(b.values))
    && Build(w, map[], b) == Ok(FirstManifest(y)) && FreshRelease(w, FirstManifest(y))
    && Build(w, map[y.tag := FirstManifest(y)], c) == Ok(SecondManifest(y)) && !FreshRelease(w, SecondManifest(y))
  }

  lemma StoryGoesStale(y: Story)
    requires StoryOk(y)
    ensures GoesStale(y)
  {
    StoryAncestry(y);
    FirstBuild(y);
    FirstInputsOk(y);
    FirstIsFresh(y);
    SecondBuild(y);
    SecondInputsOk(y);
    SecondIsStale(y);
  }

  /** The condition on the values is needed: for every selector that is not empty, every image outside it and
      every input of that image, in any tree, there are two such builds. The image leaves the selector in
      between. */
  lemma UnregisteredGoesStale(glob: (string, string) -> bool, printed: Path -> string, sel: Selector, image: Image,
                              file: Path, rest: Tree)
    returns (y: Story)
    requires sel != [] && !Registered(sel, FullName(image)) && Matches(glob, image, file)
    ensures GoesStale(y) && y.glob == glob && y.printed == printed && y.rest == rest && y.file == file
    ensures y.second == sel && y.first == sel + [image] && y.stale == image
  {
    y := Story(glob, printed, sel + [image], sel, image, file, rest, "b", "h", "t", "k", "x", "y");
    assert sel[0] in sel && FullName(sel[0]) in y.Others();
    forall other | other in y.first + y.second && FullName(other) == y.Name()
      ensures other == image
    {
      assert other !in sel;
    }
    StoryGoesStale(y);
  }

  // ---------------------------------------------------------------------------------------------
  // The condition on printed names is exact.

  ghost predicate DistinctNames(sel: Selector) {
    forall a, b :: a in sel && b in sel && FullName(a) == FullName(b) ==> a == b
  }

  /** Every chain of builds under the selector, from no release at all and in any repository with these
      patterns and printed names, has only fresh releases. */
  ghost predicate ChainsFresh(w: World, sel: Selector) {
    forall v: World, builds: seq<(string, Inputs)> :: SameNames(v, w) && ChainOk(v, sel, builds) ==>
      AllFresh(v, Releases(v, map[], builds))
  }

  ghost predicate SameNames(v: World, w: World) {
    v.glob == w.glob && v.printed == w.printed && AncestryOk(v)
  }

  ghost predicate ChainOk(w: World, sel: Selector, builds: seq<(string, Inputs)>) {
    forall b :: b in builds ==> b.1.sel == sel && InputsOk(w, b.1)
  }

  ghost predicate AllFresh(w: World, registry: map<string, Manifest>) {
    forall tag :: tag in registry ==> FreshRelease(w, registry[tag])
  }

  lemma SameNamesSee(v: World, w: World, sel: Selector)
    requires SameNames(v, w) && SeesAll(w, sel)
    ensures SeesAll(v, sel)
  {
    forall image, p | image in sel && IsInput(v, image, p)
      ensures IsSeen(v, image, p)
    {
      assert IsInput(w, image, p) && IsSeen(w, image, p);
    }
  }

  lemma SeesAllIsEnough(w: World, sel: Selector, builds: seq<(string, Inputs)>)
    requires SeesAll(w, sel) && ChainOk(w, sel, builds)
    ensures AllFresh(w, Releases(w, map[], builds))
  {
    forall b | b in builds
      ensures DiffsSeen(w, b.1)
    {
    }
    IncrementalUnderOneSelector(w, sel, map[], builds);
  }

  lemma ReleasesOfTwo(w: World, s: string, a: Inputs, m: Manifest, t: string, b: Inputs, n: Manifest)
    requires Build(w, map[], a) == Ok(m) && Build(w, map[s := m], b) == Ok(n)
    ensures Releases(w, map[], [(s, a), (t, b)]) == map[s := m][t := n]
  {
    var one: seq<(string, Inputs)> := [(t, b)];
    var two := [(s, a), (t, b)];
    var none: map<string, Manifest> := map[];
    assert two[1..] == one && one[1..] == [] && none[s := m] == map[s := m];
    assert Releases(w, none, two) == Releases(w, map[s := m], one);
    assert Releases(w, map[s := m], one) == Releases(w, map[s := m][t := n], []);
  }

  /** The story of an input that is not seen. */
  lemma UnseenStory(w: World, sel: Selector, image: Image, p: Path) returns (y: Story)
    requires DistinctNames(sel) && image in sel && IsInput(w, image, p) && !IsSeen(w, image, p)
    ensures y.glob == w.glob && y.printed == w.printed && y.first == sel && y.second == sel && y.stale == image
    ensures y.file == p && y.base != y.head && y.before != y.after
    ensures StoryOk(y) <==> NamesOf(sel) != {FullName(image)}
  {
    y := Story(w.glob, w.printed, sel, sel, image, p, map[], "b", "h", "t", "k", "x", "y");
    assert FullName(image) in NamesOf(sel);
    assert y.Others() == {} <==> NamesOf(sel) == {FullName(image)};
  }

  lemma TwoBuildsStale(w: World, v: World, sel: Selector, s: string, a: Inputs, m: Manifest, t: string, b: Inputs, n: Manifest)
    requires SameNames(v, w) && a.sel == sel && b.sel == sel && InputsOk(v, a) && InputsOk(v, b)
    requires Build(v, map[], a) == Ok(m) && Build(v, map[s := m], b) == Ok(n) && !FreshRelease(v, n)
    ensures !ChainsFresh(w, sel)
  {
    ReleasesOfTwo(v, s, a, m, t, b, n);
    ChainIsStale(w, v, sel, [(s, a), (t, b)], t);
  }

  lemma StaleChain(y: Story, w: World, second: string)
    requires GoesStale(y) && y.first == y.second && y.glob == w.glob && y.printed == w.printed
    ensures !ChainsFresh(w, y.first)
  {
    TwoBuildsStale(w, StoryWorld(y), y.first, y.tag, FirstInputs(y), FirstManifest(y), second, SecondInputs(y), SecondManifest(y));
  }

  /** An image that is not alone in the selector: its stale digest is inherited. */
  lemma UnseenIsInherited(w: World, sel: Selector, image: Image, p: Path)
    requires DistinctNames(sel) && image in sel && IsInput(w, image, p) && !IsSeen(w, image, p)
    requires NamesOf(sel) != {FullName(image)}
    ensures !ChainsFresh(w, sel)
  {
    var y := UnseenStory(w, sel, image, p);
    StoryGoesStale(y);
    StaleChain(y, w, y.tag);
  }

  lemma ChainIsStale(w: World, v: World, sel: Selector, builds: seq<(string, Inputs)>, tag: string)
    requires SameNames(v, w) && ChainOk(v, sel, builds)
    requires tag in Releases(v, map[], builds) && !FreshRelease(v, Releases(v, map[], builds)[tag])
    ensures !ChainsFresh(w, sel)
  {
    assert !AllFresh(v, Releases(v, map[], builds));
  }

  /** One build of the only image, published before the change and released after it. */
  ghost function OnlyInputs(y: Story): Inputs {
    StoryInputs(y, y.first, y.head, Publication(y.base, Commit(y.base), y.base, Uniform(NamesOf(y.first), y.before)))
  }

  lemma OnlyBuild(y: Story)
    requires y.base != y.head && y.before != y.after && y.stale in y.first && NamesOf(y.first) == {y.Name()}
    requires forall image :: image in y.first ==> !Matches(y.glob, image, y.printed(y.file))
    ensures Build(StoryWorld(y), map[], OnlyInputs(y))
         == Ok(Manifest(y.head, Uniform(NamesOf(y.first), y.before), StoryRefs(y), StoryRefs(y), false))
  {
    var w, b := StoryWorld(y), OnlyInputs(y);
    StoryName(y);
    assert ImageSourceBoundary(w, y.first, y.base, y.head).Ok? by {
      StoryDiffs(y, y.head);
      forall image | image in y.first
        ensures !Touched(w, image, {y.file})
      {
        assert !IsSeen(w, image, y.file);
      }
      NothingAffectedIfUntouched(w, y.first, {y.file});
    }
    UniformRegistered(y.first, NamesOf(y.first), y.before);
    StoryAssembles(y, y.first, y.head, b.publication, map[]);
    BuildAssembles(w, map[], b, map[]);
  }

  lemma OnlyChain(y: Story, w: World)
    requires y.base != y.head && y.before != y.after && y.stale in y.first && NamesOf(y.first) == {y.Name()}
    requires forall image :: image in y.first ==> Matches(y.glob, image, y.file) && !Matches(y.glob, image, y.printed(y.file))
    requires y.glob == w.glob && y.printed == w.printed
    ensures !ChainsFresh(w, y.first)
  {
    var v, b := StoryWorld(y), OnlyInputs(y);
    OnlyBuild(y);
    UniformFresh(y, NamesOf(y.first), y.base);
    StoryReproducible(y, y.first);
    StoryAncestry(y);
    StoryRefFresh(y);
    var m := Build(v, map[], b).value;
    assert !FreshRef(v, m.releaseValues[y.key], y.head);
    OneBuildStale(w, v, y.first, y.tag, b, m);
  }

  lemma OneBuildStale(w: World, v: World, sel: Selector, s: string, a: Inputs, m: Manifest)
    requires SameNames(v, w) && a.sel == sel && InputsOk(v, a) && Build(v, map[], a) == Ok(m) && !FreshRelease(v, m)
    ensures !ChainsFresh(w, sel)
  {
    var one: seq<(string, Inputs)> := [(s, a)];
    var none: map<string, Manifest> := map[];
    assert one[1..] == [] && Releases(v, none, one) == Releases(v, none[s := m], []);
    ChainIsStale(w, v, sel, one, s);
  }

  /** An image that is alone in the selector: the boundary check lets its published digest through. */
  lemma UnseenPassesBoundary(w: World, sel: Selector, image: Image, p: Path)
    requires DistinctNames(sel) && image in sel && IsInput(w, image, p) && !IsSeen(w, image, p)
    requires NamesOf(sel) == {FullName(image)}
    ensures !ChainsFresh(w, sel)
  {
    var y := UnseenStory(w, sel, image, p);
    forall other | other in sel
      ensures other == image
    {
      assert FullName(other) in NamesOf(sel);
    }
    OnlyChain(y, w);
  }

  /** The exact condition, for every selector whose images have different names: all chains of releases equal
      full rebuilds if and only if every input path matches as git prints it. */
  lemma IncrementalExactly(w: World, sel: Selector)
    requires DistinctNames(sel)
    ensures ChainsFresh(w, sel) <==> SeesAll(w, sel)
  {
    if SeesAll(w, sel) {
      forall v: World, builds: seq<(string, Inputs)> | SameNames(v, w) && ChainOk(v, sel, builds)
        ensures AllFresh(v, Releases(v, map[], builds))
      {
        SameNamesSee(v, w, sel);
        SeesAllIsEnough(v, sel, builds);
      }
    } else {
      var image, p :| image in sel && IsInput(w, image, p) && !IsSeen(w, image, p);
      if NamesOf(sel) == {FullName(image)} { UnseenPassesBoundary(w, sel, image, p); } else { UnseenIsInherited(w, sel, image, p); }
    }
  }

  /** With names as git prints them: if and only if no input path has an unusual character. */
  lemma IncrementalExactlyWithGit(w: World, sel: Selector)
    requires DistinctNames(sel) && PrintsAsGit(w) && PlainHeads(w, sel)
    ensures ChainsFresh(w, sel) <==> forall image, p :: image in sel && IsInput(w, image, p) ==> !HasUnusual(p)
  {
    IncrementalExactly(w, sel);
    GitSeesExactly(w, sel);
  }
}
