/** Building a release from an image publication and the images of a base release
    (scripts/build-release-manifest.py). */
module Release {
  import opened Common
  import opened ReleaseInputs

  /** An image reference with its digest. */
  datatype Ref = Ref(name: string, digest: Digest)

  /** One entry of `values.images`. */
  datatype ImageValue = Unpinned(name: string) | Pinned(ref: Ref) | NotText

  datatype BaseRef = Tag(tag: string) | Commit(commit: CommitId)

  /** What one image run published, and the base it was compared with. */
  datatype Publication = Publication(
    commit: CommitId, baseRef: BaseRef, baseRefCommit: CommitId, images: map<string, Digest>)

  /** The parts of a signed release manifest, and of the values asset it binds, that a later build reads. */
  datatype Manifest = Manifest(
    commit: CommitId, published: map<string, Digest>, images: map<string, Ref>, releaseValues: map<string, Ref>,
    transition: bool)

  datatype BuildError =
    | EmptyPublication | UnregisteredPublication | Boundary(error: BoundaryError)
    | NoBaseRelease | BaseCommitDiffers | BaseNotAnAncestor | Unpublished(images: seq<Image>) | AmbiguousBase
    | PinnedValue | NoDigest | UnresolvedImage | UnnamedImage | BindingDiffers

  /** The inputs of one build. `rendered` are the image references of the rendered chart; `extra`
      are the inventory entries that only a transition release adds. */
  datatype Inputs = Inputs(
    sel: Selector, commit: CommitId, publication: Publication, values: map<string, ImageValue>,
    rendered: set<Ref>, extra: Option<map<string, Ref>>)

  predicate IsRepository(name: string) {
    REPOSITORY_IMAGES <= name
  }

  function FullName(image: Image): string {
    REPOSITORY_IMAGES + image.image
  }

  predicate Registered(sel: Selector, name: string) {
    exists image :: image in sel && FullName(image) == name
  }

  /** Keys that a transition release reserves for the images of its input releases. */
  predicate IsTransitionInput(key: string) {
    "transitionInput" <= key && |key| > 15 && forall i :: 15 <= i < |key| ==> '0' <= key[i] <= '9'
  }

  // ---------------------------------------------------------------------------------------------
  // The images of the base release.

  /** The entries of a manifest that name an image of its own release. */
  predicate Counts(base: Manifest, key: string) {
    key in base.images && !(base.transition && IsTransitionInput(key)) && IsRepository(base.images[key].name)
  }

  /** No two digests are given for one name, in `images` or in the entries of `refs` under `keys`. */
  predicate Agree(images: map<string, Digest>, refs: map<string, Ref>, keys: set<string>)
    requires keys <= refs.Keys
  {
    && (forall k :: k in keys && refs[k].name in images ==> images[refs[k].name] == refs[k].digest)
    && (forall k, l :: k in keys && l in keys && refs[k].name == refs[l].name ==> refs[k].digest == refs[l].digest)
  }

  function Names(refs: map<string, Ref>, keys: set<string>): set<string>
    requires keys <= refs.Keys
  {
    set k | k in keys :: refs[k].name
  }

  /** `all` is `images` with those entries added. */
  predicate Adds(images: map<string, Digest>, refs: map<string, Ref>, keys: set<string>, all: map<string, Digest>)
    requires keys <= refs.Keys
  {
    && all.Keys == images.Keys + Names(refs, keys)
    && (forall name :: name in images ==> all[name] == images[name])
    && (forall k :: k in keys ==> all[refs[k].name] == refs[k].digest)
  }

  ghost function DigestIn(images: map<string, Digest>, refs: map<string, Ref>, keys: set<string>, name: string): Digest
    requires keys <= refs.Keys
  {
    if name in images then images[name]
    else if exists k :: k in keys && refs[k].name == name then
      var k :| k in keys && refs[k].name == name;
      refs[k].digest
    else ""
  }

  ghost function Added(images: map<string, Digest>, refs: map<string, Ref>, keys: set<string>): (all: map<string, Digest>)
    requires keys <= refs.Keys && Agree(images, refs, keys)
    ensures Adds(images, refs, keys, all)
  {
    MapOf(images.Keys + Names(refs, keys), (name: string) => DigestIn(images, refs, keys, name))
  }

  /** The loop that fills the dictionary entry by entry, and fails on the first disagreement. */
  method AddAll(images: map<string, Digest>, refs: map<string, Ref>, keys: set<string>) returns (r: Option<map<string, Digest>>)
    requires keys <= refs.Keys
    ensures r.Some? <==> Agree(images, refs, keys)
    ensures r.Some? ==> r.value == Added(images, refs, keys)
  {
    var all, todo := images, keys;
    ghost var done := {};
    while todo != {}
      invariant done + todo == keys && Adds(images, refs, done, all)
    {
      var k :| k in todo;
      var name, digest := refs[k].name, refs[k].digest;
      if name in all && all[name] != digest {
        assert name in images || exists l :: l in done && refs[l].name == name;
        return None;
      }
      AddOne(images, refs, done, k, all);
      all, todo, done := all[name := digest], todo - {k}, done + {k};
    }
    AddsDetermines(images, refs, keys, all);
    return Some(all);
  }

  lemma AddOne(images: map<string, Digest>, refs: map<string, Ref>, done: set<string>, k: string, all: map<string, Digest>)
    requires done <= refs.Keys && k in refs && Adds(images, refs, done, all)
    requires refs[k].name in all ==> all[refs[k].name] == refs[k].digest
    ensures Adds(images, refs, done + {k}, all[refs[k].name := refs[k].digest])
  {
    assert Names(refs, done + {k}) == Names(refs, done) + {refs[k].name};
  }

  lemma AddsDetermines(images: map<string, Digest>, refs: map<string, Ref>, keys: set<string>, all: map<string, Digest>)
    requires keys <= refs.Keys && Adds(images, refs, keys, all)
    ensures Agree(images, refs, keys) && all == Added(images, refs, keys)
  {
    assert forall k :: k in keys ==> refs[k].name in all;
    var other := Added(images, refs, keys);
    forall name | name in all
      ensures other[name] == all[name]
    {
      if name !in images {
        var k :| k in keys && refs[k].name == name;
      }
    }
  }

  /** The digests a build may inherit: those the base published, those its manifest names, and, for
      required images that still miss, those its values asset pins. */
  ghost function BaseImages(base: Manifest, required: set<string>, published: set<string>): Option<map<string, Digest>> {
    var keys := set k | k in base.images && Counts(base, k);
    if !Agree(base.published, base.images, keys) then None
    else
      var images := Added(base.published, base.images, keys);
      var missing := required - images.Keys - published;
      var more := set k | k in base.releaseValues && base.releaseValues[k].name in missing;
      if !Agree(images, base.releaseValues, more) then None
      else Some(Added(images, base.releaseValues, more))
  }

  /** The base images of a publication, after the check that every image whose inputs changed since
      the base was published anew. A base that is a commit gives none. */
  ghost function BaseReleaseImages(w: World, registry: map<string, Manifest>, sel: Selector, pub: Publication, required: set<string>)
    : Result<map<string, Digest>, BuildError>
  {
    if pub.baseRef.Commit? then Ok(map[])
    else if pub.baseRef.tag !in registry then Err(NoBaseRelease)
    else
      var base := registry[pub.baseRef.tag];
      if base.commit != pub.baseRefCommit then Err(BaseCommitDiffers)
      else if !w.isAncestor(pub.baseRefCommit, pub.commit) then Err(BaseNotAnAncestor)
      else
        var changed := AffectedImages(w, sel, Diff(w.tree(pub.baseRefCommit), w.tree(pub.commit)));
        var unpublished := Filter((image: Image) => FullName(image) !in pub.images, changed);
        if unpublished != [] then Err(Unpublished(unpublished))
        else
          match BaseImages(base, required, pub.images.Keys)
          case None => Err(AmbiguousBase)
          case Some(images) => Ok(images)
  }

  // ---------------------------------------------------------------------------------------------
  // Resolving the images of the values.

  function NameOf(value: ImageValue): string {
    match value
    case Unpinned(name) => name
    case Pinned(ref) => ref.name
    case NotText => ""
  }

  predicate NamesRepository(value: ImageValue) {
    !value.NotText? && IsRepository(NameOf(value))
  }

  predicate Resolvable(value: ImageValue, published: map<string, Digest>, base: map<string, Digest>) {
    NamesRepository(value) ==> value.Unpinned? && (value.name in published || value.name in base)
  }

  /** A published digest wins over the digest of the base release. */
  function DigestFor(name: string, published: map<string, Digest>, base: map<string, Digest>): Digest
    requires name in published || name in base
  {
    if name in published then published[name] else base[name]
  }

  function RefFor(value: ImageValue, published: map<string, Digest>, base: map<string, Digest>): Ref
    requires NamesRepository(value) && Resolvable(value, published, base)
  {
    Ref(value.name, DigestFor(value.name, published, base))
  }

  ghost function Resolved(values: map<string, ImageValue>, published: map<string, Digest>, base: map<string, Digest>)
    : (r: map<string, Ref>)
    requires forall k :: k in values ==> Resolvable(values[k], published, base)
    ensures r.Keys == set k | k in values && NamesRepository(values[k])
    ensures forall k :: k in r ==> r[k] == RefFor(values[k], published, base)
  {
    MapOf(set k | k in values && NamesRepository(values[k]),
          (k: string) => if k in values && NamesRepository(values[k]) then RefFor(values[k], published, base) else Ref("", ""))
  }

  /** Give each repository image of the values its digest, or fail when one is pinned or has none. */
  method ReleaseImages(values: map<string, ImageValue>, published: map<string, Digest>, base: map<string, Digest>)
    returns (r: Result<map<string, Ref>, BuildError>)
    ensures r.Ok? <==> forall k :: k in values ==> Resolvable(values[k], published, base)
    ensures r.Ok? ==> r.value == Resolved(values, published, base)
    ensures r.Err? ==> r.error.PinnedValue? || r.error.NoDigest?
  {
    var resolved: map<string, Ref> := map[];
    var todo := values.Keys;
    while todo != {}
      invariant todo <= values.Keys
      invariant forall k :: k in values && k !in todo ==> Resolvable(values[k], published, base)
      invariant resolved.Keys == set k | k in values && k !in todo && NamesRepository(values[k])
      invariant forall k :: k in resolved ==>
                  resolved[k] == RefFor(values[k], published, base)
    {
      var k :| k in todo;
      if NamesRepository(values[k]) {
        if !values[k].Unpinned? { return Err(PinnedValue); }
        var name := values[k].name;
        if name !in published && name !in base { return Err(NoDigest); }
        resolved := resolved[k := Ref(name, if name in published then published[name] else base[name])];
      }
      todo := todo - {k};
    }
    return Ok(resolved);
  }

  // ---------------------------------------------------------------------------------------------
  // The build.

  function Required(values: map<string, ImageValue>): set<string> {
    set k | k in values && NamesRepository(values[k]) :: NameOf(values[k])
  }

  /** The values with the resolved references laid over them. */
  ghost function Merged(values: map<string, ImageValue>, overlay: map<string, Ref>): (r: map<string, Ref>)
    ensures r.Keys == overlay.Keys + set k | k in values && values[k].Pinned?
    ensures forall k :: k in r ==> r[k] == if k in overlay then overlay[k] else values[k].ref
  {
    MapOf(set k | k in values && values[k].Pinned?,
          (k: string) => if k in values && values[k].Pinned? then values[k].ref else Ref("", "")) + overlay
  }

  /** The build, up to the digests it may inherit. */
  ghost function Build(w: World, registry: map<string, Manifest>, b: Inputs): Result<Manifest, BuildError> {
    var pub := b.publication;
    if pub.images == map[] then Err(EmptyPublication)
    else if exists name :: name in pub.images && !Registered(b.sel, name) then Err(UnregisteredPublication)
    else
      var boundary := ImageSourceBoundary(w, b.sel, pub.commit, b.commit);
      if boundary.Err? then Err(Boundary(boundary.error))
      else
        var base := BaseReleaseImages(w, registry, b.sel, pub, Required(b.values));
        if base.Err? then Err(base.error) else Assemble(b, base.value)
  }

  /** The manifest, once the inherited digests are known. */
  ghost function Assemble(b: Inputs, base: map<string, Digest>): Result<Manifest, BuildError> {
    var published := b.publication.images;
    if exists k :: k in b.values && NamesRepository(b.values[k]) && !b.values[k].Unpinned? then Err(PinnedValue)
    else if exists k :: k in b.values && !Resolvable(b.values[k], published, base) then Err(NoDigest)
    else
      var overlay := Resolved(b.values, published, base);
      var merged := Merged(b.values, overlay);
      if exists ref :: ref in b.rendered && IsRepository(ref.name) && ref !in overlay.Values then Err(UnresolvedImage)
      else if exists ref :: ref in b.rendered && ref !in merged.Values then Err(UnnamedImage)
      else
        var named := merged - (set k | k in merged && merged[k] !in b.rendered);
        if exists k :: k in named && named[k].name in published && named[k].digest != published[named[k].name]
        then Err(BindingDiffers)
        else
          var inventory := if b.extra.Some? then named + b.extra.value else named;
          Ok(Manifest(b.commit, published, inventory, overlay, b.extra.Some?))
  }

  // ---------------------------------------------------------------------------------------------
  // An incremental release equals a full rebuild.

  /** Builds are reproducible: the digest of an image of the selector depends on its inputs alone. */
  ghost predicate Reproducible(w: World, sel: Selector) {
    forall image, s: Tree, t: Tree :: image in sel && InputsOf(w, image, s) == InputsOf(w, image, t) ==>
      w.digest(FullName(image), s) == w.digest(FullName(image), t)
  }

  /** The digests are those of a build at `commit`. */
  ghost predicate Fresh(w: World, images: map<string, Digest>, commit: CommitId) {
    forall name :: name in images ==> images[name] == w.digest(name, w.tree(commit))
  }

  ghost predicate FreshRef(w: World, ref: Ref, commit: CommitId) {
    IsRepository(ref.name) ==> ref.digest == w.digest(ref.name, w.tree(commit))
  }

  /** Every repository image a release deploys, resolves or publishes has the digest a full rebuild
      at the release commit would give it. */
  ghost predicate FreshRelease(w: World, m: Manifest) {
    && Fresh(w, m.published, m.commit)
    && (forall k :: Counts(m, k) ==> FreshRef(w, m.images[k], m.commit))
    && (forall k :: k in m.releaseValues ==> FreshRef(w, m.releaseValues[k], m.commit) && IsRepository(m.releaseValues[k].name))
  }

  /** Only keys reserved for transition inputs are added by a transition. */
  ghost predicate ExtraOk(b: Inputs) {
    b.extra.Some? ==> forall k :: k in b.extra.value ==> IsTransitionInput(k)
  }

  /** The publication holds the digests its run built at the image source commit. */
  ghost predicate InputsOk(w: World, b: Inputs) {
    Fresh(w, b.publication.images, b.publication.commit) && Reproducible(w, b.sel) && ExtraOk(b)
  }

  /** The changed inputs of the two diffs that a build reads are seen: from its image source commit to its
      release commit, and from its base release, if there is one, to its image source commit. */
  ghost predicate DiffsSeen(w: World, b: Inputs) {
    var pub := b.publication;
    && AllSeen(w, b.sel, Diff(w.tree(pub.commit), w.tree(b.commit)))
    && (pub.baseRef.Tag? ==> AllSeen(w, b.sel, Diff(w.tree(pub.baseRefCommit), w.tree(pub.commit))))
  }

  lemma BaseImagesFresh(w: World, base: Manifest, required: set<string>, published: set<string>)
    requires FreshRelease(w, base) && BaseImages(base, required, published).Some?
    ensures Fresh(w, BaseImages(base, required, published).value, base.commit)
  {
    var keys := set k | k in base.images && Counts(base, k);
    var images := Added(base.published, base.images, keys);
    assert forall k :: k in keys ==> FreshRef(w, base.images[k], base.commit);
    AddedFresh(w, base.published, base.images, keys, base.commit);
    var missing := required - images.Keys - published;
    var more := set k | k in base.releaseValues && base.releaseValues[k].name in missing;
    AddedFresh(w, images, base.releaseValues, more, base.commit);
  }

  lemma AddedFresh(w: World, images: map<string, Digest>, refs: map<string, Ref>, keys: set<string>, commit: CommitId)
    requires keys <= refs.Keys && Agree(images, refs, keys) && Fresh(w, images, commit)
    requires forall k :: k in keys ==> FreshRef(w, refs[k], commit) && IsRepository(refs[k].name)
    ensures Fresh(w, Added(images, refs, keys), commit)
  {
    var all := Added(images, refs, keys);
    forall name | name in all
      ensures all[name] == w.digest(name, w.tree(commit))
    {
      if name !in images {
        var k :| k in keys && refs[k].name == name;
        assert FreshRef(w, refs[k], commit);
      }
    }
  }

  lemma {:induction false} FilterEmpty<T>(p: T -> bool, s: seq<T>, x: T)
    requires Filter(p, s) == [] && x in s
    ensures !p(x)
  {
    if s[0] != x {
      assert x in s[1..];
      FilterEmpty(p, s[1..], x);
    }
  }

  /** An inherited digest of a registered image is still the right one at the image source commit. */
  lemma InheritedFresh(w: World, registry: map<string, Manifest>, b: Inputs, name: string)
    requires InputsOk(w, b) && DiffsSeen(w, b) && forall tag :: tag in registry ==> FreshRelease(w, registry[tag])
    requires var base := BaseReleaseImages(w, registry, b.sel, b.publication, Required(b.values));
             base.Ok? && name in base.value
    requires name !in b.publication.images && Registered(b.sel, name)
    ensures var base := BaseReleaseImages(w, registry, b.sel, b.publication, Required(b.values));
            base.value[name] == w.digest(name, w.tree(b.publication.commit))
  {
    var pub := b.publication;
    var m := registry[pub.baseRef.tag];
    BaseImagesFresh(w, m, Required(b.values), pub.images.Keys);
    var image :| image in b.sel && FullName(image) == name;
    var diff := Diff(w.tree(m.commit), w.tree(pub.commit));
    var changed := AffectedImages(w, b.sel, diff);
    AffectedIsTouched(w, b.sel, diff);
    if image in changed {
      FilterEmpty((i: Image) => FullName(i) !in pub.images, changed, image);
    }
    assert Seen(w, image, diff);
    UntouchedIsSameInputs(w, image, w.tree(m.commit), w.tree(pub.commit));
  }

  /** A resolved image has its name from the values and its digest from the publication or the base. */
  ghost predicate FromValues(b: Inputs, base: map<string, Digest>, k: string, ref: Ref) {
    && k in b.values && ref.name == NameOf(b.values[k])
    && ref.name in Required(b.values) && IsRepository(ref.name)
    && (ref.name in b.publication.images || ref.name in base)
    && ref.digest == DigestFor(ref.name, b.publication.images, base)
  }

  /** What a manifest deploys was resolved, what was resolved comes from the values, and all that the
      values require was resolved. */
  ghost predicate ResolvedOk(b: Inputs, base: map<string, Digest>, m: Manifest) {
    && (forall k :: Counts(m, k) ==> m.images[k] in m.releaseValues.Values)
    && (forall k :: k in m.releaseValues ==> FromValues(b, base, k, m.releaseValues[k]))
    && (forall name :: name in Required(b.values) ==> exists k :: k in m.releaseValues && m.releaseValues[k].name == name)
    && m.published == b.publication.images && m.commit == b.commit
  }

  /** Every repository image a manifest deploys is one that the build resolved. */
  lemma DeployedIsResolved(b: Inputs, base: map<string, Digest>)
    requires ExtraOk(b) && Assemble(b, base).Ok?
    ensures ResolvedOk(b, base, Assemble(b, base).value)
  {
    var m := Assemble(b, base).value;
    forall k | Counts(m, k)
      ensures m.images[k] in m.releaseValues.Values
    {
      assert m.images[k] in b.rendered;
    }
    forall name | name in Required(b.values)
      ensures exists k :: k in m.releaseValues && m.releaseValues[k].name == name
    {
      var k :| k in b.values && NamesRepository(b.values[k]) && NameOf(b.values[k]) == name;
      assert Resolvable(b.values[k], b.publication.images, base);
      assert m.releaseValues[k].name == name;
    }
  }

  ghost predicate AllRegistered(sel: Selector, names: set<string>) {
    forall name :: name in names ==> Registered(sel, name)
  }

  /** What was published at the image source commit is still right at the release commit. */
  lemma PublishedFresh(w: World, b: Inputs)
    requires InputsOk(w, b) && DiffsSeen(w, b) && ImageSourceBoundary(w, b.sel, b.publication.commit, b.commit).Ok?
    requires AllRegistered(b.sel, b.publication.images.Keys)
    ensures Fresh(w, b.publication.images, b.commit)
  {
    var pub := b.publication;
    forall name | name in pub.images
      ensures pub.images[name] == w.digest(name, w.tree(b.commit))
    {
      StaysFresh(w, b, name);
    }
  }

  /** A manifest is fresh when what it resolved is. */
  lemma ManifestFresh(w: World, b: Inputs, base: map<string, Digest>, m: Manifest)
    requires ResolvedOk(b, base, m) && Fresh(w, b.publication.images, b.commit)
    requires forall k :: k in m.releaseValues ==> FreshRef(w, m.releaseValues[k], m.commit)
    ensures FreshRelease(w, m)
  {
    forall k | k in m.releaseValues
      ensures IsRepository(m.releaseValues[k].name)
    {
      assert FromValues(b, base, k, m.releaseValues[k]);
    }
    forall k | Counts(m, k)
      ensures FreshRef(w, m.images[k], m.commit)
    {
      var l :| l in m.releaseValues && m.releaseValues[l] == m.images[k];
      assert FreshRef(w, m.releaseValues[l], m.commit);
    }
  }

  /** What a successful build has checked and assembled. */
  lemma BuildSteps(w: World, registry: map<string, Manifest>, b: Inputs) returns (base: map<string, Digest>)
    requires ExtraOk(b) && Build(w, registry, b).Ok?
    ensures BaseReleaseImages(w, registry, b.sel, b.publication, Required(b.values)) == Ok(base)
    ensures ImageSourceBoundary(w, b.sel, b.publication.commit, b.commit).Ok?
    ensures AllRegistered(b.sel, b.publication.images.Keys)
    ensures ResolvedOk(b, base, Build(w, registry, b).value)
  {
    base := BaseReleaseImages(w, registry, b.sel, b.publication, Required(b.values)).value;
    DeployedIsResolved(b, base);
  }

  /** What is right at the image source commit for an image of the selector is so at the release commit. */
  lemma StaysFresh(w: World, b: Inputs, name: string)
    requires Reproducible(w, b.sel) && DiffsSeen(w, b) && Registered(b.sel, name)
    requires ImageSourceBoundary(w, b.sel, b.publication.commit, b.commit).Ok?
    ensures w.digest(name, w.tree(b.publication.commit)) == w.digest(name, w.tree(b.commit))
  {
    var s, t := w.tree(b.publication.commit), w.tree(b.commit);
    var image :| image in b.sel && FullName(image) == name;
    UnaffectedIsSameInputs(w, b.sel, s, t);
    assert InputsOf(w, image, s) == InputsOf(w, image, t);
  }

  /** Every resolved digest of a registered image is that of a full rebuild at the release commit. */
  lemma ResolvedFresh(w: World, registry: map<string, Manifest>, b: Inputs, base: map<string, Digest>, k: string, ref: Ref)
    requires InputsOk(w, b) && DiffsSeen(w, b) && forall tag :: tag in registry ==> FreshRelease(w, registry[tag])
    requires BaseReleaseImages(w, registry, b.sel, b.publication, Required(b.values)) == Ok(base)
    requires ImageSourceBoundary(w, b.sel, b.publication.commit, b.commit).Ok?
    requires FromValues(b, base, k, ref) && Registered(b.sel, ref.name)
    ensures FreshRef(w, ref, b.commit)
  {
    if ref.name !in b.publication.images {
      InheritedFresh(w, registry, b, ref.name);
    }
    StaysFresh(w, b, ref.name);
  }

  /** One successful build keeps the registry of releases fresh. */
  lemma BuildIsFresh(w: World, registry: map<string, Manifest>, b: Inputs)
    requires InputsOk(w, b) && DiffsSeen(w, b) && forall tag :: tag in registry ==> FreshRelease(w, registry[tag])
    requires Build(w, registry, b).Ok? && AllRegistered(b.sel, Required(b.values))
    ensures FreshRelease(w, Build(w, registry, b).value)
  {
    var m := Build(w, registry, b).value;
    var base := BuildSteps(w, registry, b);
    PublishedFresh(w, b);
    forall k | k in m.releaseValues
      ensures FreshRef(w, m.releaseValues[k], b.commit)
    {
      assert FromValues(b, base, k, m.releaseValues[k]);
      ResolvedFresh(w, registry, b, base, k, m.releaseValues[k]);
    }
    ManifestFresh(w, b, base, m);
  }

  /** A run of builds: each successful one signs its manifest under its tag. */
  ghost function Releases(w: World, registry: map<string, Manifest>, builds: seq<(string, Inputs)>): map<string, Manifest>
    decreases |builds|
  {
    if builds == [] then registry
    else
      var r := Build(w, registry, builds[0].1);
      Releases(w, if r.Ok? then registry[builds[0].0 := r.value] else registry, builds[1..])
  }

  /** An incremental release equals a full rebuild, over every chain of releases: whatever was
      published or inherited, each digest is the one a rebuild at its release commit would give. Each build
      must name only images of its selector, and see the changed inputs in its diffs. */
  lemma {:induction false} IncrementalEqualsFull(w: World, registry: map<string, Manifest>, builds: seq<(string, Inputs)>)
    requires forall tag :: tag in registry ==> FreshRelease(w, registry[tag])
    requires forall b :: b in builds ==> InputsOk(w, b.1) && DiffsSeen(w, b.1) && AllRegistered(b.1.sel, Required(b.1.values))
    ensures var all := Releases(w, registry, builds);
            forall tag :: tag in all ==> FreshRelease(w, all[tag])
    decreases |builds|
  {
    if builds != [] {
      var r := Build(w, registry, builds[0].1);
      if r.Ok? { BuildIsFresh(w, registry, builds[0].1); }
      var next := if r.Ok? then registry[builds[0].0 := r.value] else registry;
      assert forall tag :: tag in next ==> FreshRelease(w, next[tag]);
      IncrementalEqualsFull(w, next, builds[1..]);
      assert Releases(w, registry, builds) == Releases(w, next, builds[1..]);
    }
  }

  /** All names a later build can inherit are in the selector. */
  ghost predicate NamesRegistered(sel: Selector, m: Manifest) {
    && AllRegistered(sel, m.published.Keys)
    && (forall k :: Counts(m, k) ==> Registered(sel, m.images[k].name))
    && (forall k :: k in m.releaseValues ==> Registered(sel, m.releaseValues[k].name))
  }

  lemma BaseNamesRegistered(sel: Selector, base: Manifest, required: set<string>, published: set<string>)
    requires NamesRegistered(sel, base) && BaseImages(base, required, published).Some?
    ensures AllRegistered(sel, BaseImages(base, required, published).value.Keys)
  {
  }

  lemma InheritedNamesRegistered(w: World, registry: map<string, Manifest>, sel: Selector, pub: Publication, required: set<string>)
    requires forall tag :: tag in registry ==> NamesRegistered(sel, registry[tag])
    requires BaseReleaseImages(w, registry, sel, pub, required).Ok?
    ensures AllRegistered(sel, BaseReleaseImages(w, registry, sel, pub, required).value.Keys)
  {
    if pub.baseRef.Tag? {
      BaseNamesRegistered(sel, registry[pub.baseRef.tag], required, pub.images.Keys);
    }
  }

  lemma ResolvedNamesRegistered(sel: Selector, b: Inputs, base: map<string, Digest>, m: Manifest)
    requires ResolvedOk(b, base, m) && AllRegistered(sel, b.publication.images.Keys) && AllRegistered(sel, base.Keys)
    ensures AllRegistered(sel, Required(b.values)) && NamesRegistered(sel, m)
  {
    forall k | k in m.releaseValues
      ensures Registered(sel, m.releaseValues[k].name)
    {
      assert FromValues(b, base, k, m.releaseValues[k]);
    }
    forall k | Counts(m, k)
      ensures Registered(sel, m.images[k].name)
    {
      var l :| l in m.releaseValues && m.releaseValues[l] == m.images[k];
    }
    forall name | name in Required(b.values)
      ensures Registered(sel, name)
    {
      var k :| k in m.releaseValues && m.releaseValues[k].name == name;
    }
  }

  /** A successful build names only images that it published or that its base already named. */
  lemma BuildNamesRegistered(w: World, registry: map<string, Manifest>, b: Inputs)
    requires ExtraOk(b) && Build(w, registry, b).Ok?
    requires forall tag :: tag in registry ==> NamesRegistered(b.sel, registry[tag])
    ensures AllRegistered(b.sel, Required(b.values)) && NamesRegistered(b.sel, Build(w, registry, b).value)
  {
    var base := BuildSteps(w, registry, b);
    InheritedNamesRegistered(w, registry, b.sel, b.publication, Required(b.values));
    ResolvedNamesRegistered(b.sel, b, base, Build(w, registry, b).value);
  }

  /** Under one selector, and from no release at all, nothing needs to be checked about the values:
      an image outside the selector can never enter a release. */
  lemma {:induction false} IncrementalUnderOneSelector(w: World, sel: Selector, registry: map<string, Manifest>,
                                                      builds: seq<(string, Inputs)>)
    requires forall tag :: tag in registry ==> FreshRelease(w, registry[tag]) && NamesRegistered(sel, registry[tag])
    requires forall b :: b in builds ==> b.1.sel == sel && InputsOk(w, b.1) && DiffsSeen(w, b.1)
    ensures var all := Releases(w, registry, builds);
            forall tag :: tag in all ==> FreshRelease(w, all[tag]) && NamesRegistered(sel, all[tag])
    decreases |builds|
  {
    if builds != [] {
      var b := builds[0].1;
      var r := Build(w, registry, b);
      if r.Ok? {
        BuildNamesRegistered(w, registry, b);
        BuildIsFresh(w, registry, b);
      }
      var next := if r.Ok? then registry[builds[0].0 := r.value] else registry;
      assert forall tag :: tag in next ==> FreshRelease(w, next[tag]) && NamesRegistered(sel, next[tag]);
      IncrementalUnderOneSelector(w, sel, next, builds[1..]);
      assert Releases(w, registry, builds) == Releases(w, next, builds[1..]);
    }
  }

  /** The last check of the build never fails: a deployed image that was published has the
      published digest. */
  lemma BindingNeverDiffers(w: World, registry: map<string, Manifest>, b: Inputs)
    ensures Build(w, registry, b) != Err(BindingDiffers)
  {
    forall image | image in b.sel
      ensures IsRepository(FullName(image))
    {
    }
  }
}
