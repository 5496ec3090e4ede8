/** Commits, image build inputs and the walk that finds the image publication of a release
    (scripts/affected-release-images.py and scripts/find-image-publication-run.py). */
module ReleaseInputs {
  import opened Common

  type Path = string
  type CommitId = string
  type Digest = string
  /** The tree of a commit: each path with the mode and object it holds. */
  type Tree = map<Path, string>

  const REPOSITORY_IMAGES: string := "ghcr.io/confidential-dot-ai/confidential-inference/"
  /** The walk gives up after this many commits without evidence. */
  const MAX_COMMITS: nat := 200

  /** One image of the selector, with the patterns of its build inputs. */
  datatype Image = Image(image: string, paths: seq<string>)

  type Selector = seq<Image>

  /** The git history, how git prints a changed path, the pattern matcher, and the digest a build of an
      image yields at a tree. */
  datatype World = World(
    glob: (string, string) -> bool, printed: Path -> string, tree: CommitId -> Tree, parents: CommitId -> seq<CommitId>,
    isAncestor: (CommitId, CommitId) -> bool, digest: (string, Tree) -> Digest)

  function Diff(s: Tree, t: Tree): set<Path> {
    set p | p in s.Keys + t.Keys && !(p in s && p in t && s[p] == t[p])
  }

  predicate Matches(glob: (string, string) -> bool, image: Image, text: string) {
    exists pattern :: pattern in image.paths && glob(text, pattern)
  }

  /** The path is an input of the image: its content id is computed from the raw names of a tree. */
  predicate IsInput(w: World, image: Image, p: Path) {
    Matches(w.glob, image, p)
  }

  /** The path is taken for an input when it is changed: a diff is read in the names that git prints. */
  predicate IsSeen(w: World, image: Image, p: Path) {
    Matches(w.glob, image, w.printed(p))
  }

  predicate Touched(w: World, image: Image, paths: set<Path>) {
    exists p :: p in paths && IsSeen(w, image, p)
  }

  /** Each affected image once, in selector order. */
  function AffectedImages(w: World, sel: Selector, paths: set<Path>): seq<Image> {
    if sel == [] then []
    else (if Touched(w, sel[0], paths) then [sel[0]] else []) + AffectedImages(w, sel[1..], paths)
  }

  lemma {:induction false} AffectedIsTouched(w: World, sel: Selector, paths: set<Path>)
    ensures forall image :: image in AffectedImages(w, sel, paths) <==> image in sel && Touched(w, image, paths)
  {
    if sel != [] { AffectedIsTouched(w, sel[1..], paths); }
  }

  /** The input files of an image: what its content id is computed from. */
  function InputsOf(w: World, image: Image, t: Tree): (inputs: Tree)
    ensures forall p :: p in inputs <==> p in t && IsInput(w, image, p)
    ensures forall p :: p in inputs ==> inputs[p] == t[p]
  {
    t - (set p | p in t && !IsInput(w, image, p))
  }

  ghost predicate SameInputs(w: World, sel: Selector, s: Tree, t: Tree) {
    forall image :: image in sel ==> InputsOf(w, image, s) == InputsOf(w, image, t)
  }

  /** Every input of the image among `paths` is seen in their diff. */
  ghost predicate Seen(w: World, image: Image, paths: set<Path>) {
    forall p :: p in paths && IsInput(w, image, p) ==> IsSeen(w, image, p)
  }

  /** And nothing else is. */
  ghost predicate OnlySeen(w: World, image: Image, paths: set<Path>) {
    forall p :: p in paths && IsSeen(w, image, p) ==> IsInput(w, image, p)
  }

  ghost predicate AllSeen(w: World, sel: Selector, paths: set<Path>) {
    forall image :: image in sel ==> Seen(w, image, paths)
  }

  ghost predicate SameInputsOf(w: World, image: Image, s: Tree, t: Tree) {
    InputsOf(w, image, s) == InputsOf(w, image, t)
  }

  /** Two trees have the same inputs of an image exactly when no input is in their diff. */
  lemma SameInputsExactly(w: World, image: Image, s: Tree, t: Tree)
    ensures SameInputsOf(w, image, s, t) <==> forall p :: p in Diff(s, t) ==> !IsInput(w, image, p)
  {
    var a, b := InputsOf(w, image, s), InputsOf(w, image, t);
    if forall p :: p in Diff(s, t) ==> !IsInput(w, image, p) {
      forall p | p in a || p in b
        ensures p in a && p in b && a[p] == b[p]
      {
        assert p !in Diff(s, t);
      }
      assert a == b;
    } else {
      var p :| p in Diff(s, t) && IsInput(w, image, p);
      assert p in a <==> p in s;
      assert p in b <==> p in t;
    }
  }

  /** So an image that a diff does not touch has the same inputs in both trees when its changed inputs are
      seen, and is untouched exactly then when nothing else is. */
  lemma UntouchedIsSameInputs(w: World, image: Image, s: Tree, t: Tree)
    ensures Seen(w, image, Diff(s, t)) && !Touched(w, image, Diff(s, t)) ==> SameInputsOf(w, image, s, t)
    ensures OnlySeen(w, image, Diff(s, t)) && SameInputsOf(w, image, s, t) ==> !Touched(w, image, Diff(s, t))
  {
    SameInputsExactly(w, image, s, t);
  }

  ghost predicate UntouchedMeansSame(w: World, image: Image) {
    forall s: Tree, t: Tree :: !Touched(w, image, Diff(s, t)) ==> SameInputsOf(w, image, s, t)
  }

  ghost predicate SameMeansUntouched(w: World, image: Image) {
    forall s: Tree, t: Tree :: SameInputsOf(w, image, s, t) ==> !Touched(w, image, Diff(s, t))
  }

  /** Changing one file of any tree. */
  lemma OneChange(rest: Tree, p: Path, old_: string, new_: string)
    requires old_ != new_
    ensures Diff(rest[p := old_], rest[p := new_]) == {p}
  {
  }

  /** The failing tree: a change of an input that is not seen goes unnoticed, whatever else the tree has. */
  lemma UnseenChange(w: World, image: Image, rest: Tree, p: Path, old_: string, new_: string)
    requires IsInput(w, image, p) && !IsSeen(w, image, p) && old_ != new_
    ensures !Touched(w, image, Diff(rest[p := old_], rest[p := new_]))
    ensures !SameInputsOf(w, image, rest[p := old_], rest[p := new_])
  {
    OneChange(rest, p, old_, new_);
    SameInputsExactly(w, image, rest[p := old_], rest[p := new_]);
  }

  /** The condition is exact: over all trees an untouched image has the same inputs if and only if each of
      its inputs matches as git prints it, and the converse if and only if nothing else does. */
  lemma UntouchedExactly(w: World, image: Image)
    ensures UntouchedMeansSame(w, image) <==> forall p :: IsInput(w, image, p) ==> IsSeen(w, image, p)
    ensures SameMeansUntouched(w, image) <==> forall p :: IsSeen(w, image, p) ==> IsInput(w, image, p)
  {
    forall s: Tree, t: Tree
      ensures Seen(w, image, Diff(s, t)) && !Touched(w, image, Diff(s, t)) ==> SameInputsOf(w, image, s, t)
      ensures OnlySeen(w, image, Diff(s, t)) && SameInputsOf(w, image, s, t) ==> !Touched(w, image, Diff(s, t))
    {
      UntouchedIsSameInputs(w, image, s, t);
    }
    forall p
      ensures UntouchedMeansSame(w, image) && IsInput(w, image, p) ==> IsSeen(w, image, p)
      ensures SameMeansUntouched(w, image) && IsSeen(w, image, p) ==> IsInput(w, image, p)
    {
      var s, t: Tree := map[p := "a"], map[p := "b"];
      assert Diff(s, t) == {p};
      SameInputsExactly(w, image, s, t);
    }
  }

  /** Lifted to a selector: when no image is affected, and changed inputs are seen, all inputs agree. */
  lemma UnaffectedIsSameInputs(w: World, sel: Selector, s: Tree, t: Tree)
    requires AllSeen(w, sel, Diff(s, t))
    ensures AffectedImages(w, sel, Diff(s, t)) == [] ==> SameInputs(w, sel, s, t)
    ensures (forall image :: image in sel ==> OnlySeen(w, image, Diff(s, t))) && SameInputs(w, sel, s, t) ==>
              AffectedImages(w, sel, Diff(s, t)) == []
  {
    AffectedIsTouched(w, sel, Diff(s, t));
    forall image | image in sel
      ensures Touched(w, image, Diff(s, t)) || SameInputsOf(w, image, s, t)
      ensures OnlySeen(w, image, Diff(s, t)) && SameInputsOf(w, image, s, t) ==> !Touched(w, image, Diff(s, t))
    {
      UntouchedIsSameInputs(w, image, s, t);
    }
    if AffectedImages(w, sel, Diff(s, t)) != [] {
      assert AffectedImages(w, sel, Diff(s, t))[0] in sel;
    }
  }

  // ---------------------------------------------------------------------------------------------
  // The names that git prints.

  /** Characters that git does not print as they are, by default (`core.quotePath` of git-config). */
  predicate IsUnusual(c: char) {
    c < ' ' || c == '"' || c == '\\' || c as int >= 127
  }

  predicate HasUnusual(p: Path) {
    exists i :: 0 <= i < |p| && IsUnusual(p[i])
  }

  /** A name with such a character is printed in double quotes, any other as it is. */
  ghost predicate PrintsAsGit(w: World) {
    forall p :: if HasUnusual(p) then "\"" <= w.printed(p) else w.printed(p) == p
  }

  /** The pattern begins with a plain character, which only that character matches. */
  ghost predicate PlainHead(w: World, pattern: string) {
    pattern != [] && pattern[0] != '"' && forall text :: w.glob(text, pattern) ==> text != [] && text[0] == pattern[0]
  }

  ghost predicate PlainHeads(w: World, sel: Selector) {
    forall image, pattern :: image in sel && pattern in image.paths ==> PlainHead(w, pattern)
  }

  /** Every input of every image of the selector is seen when it changes. */
  ghost predicate SeesAll(w: World, sel: Selector) {
    forall image, p :: image in sel && IsInput(w, image, p) ==> IsSeen(w, image, p)
  }

  lemma QuotedIsUnseen(w: World, image: Image, text: string)
    requires "\"" <= text && forall pattern :: pattern in image.paths ==> PlainHead(w, pattern)
    ensures !Matches(w.glob, image, text)
  {
    forall pattern | pattern in image.paths
      ensures !w.glob(text, pattern)
    {
      assert PlainHead(w, pattern) && text[0] == '"';
    }
  }

  /** With names as git prints them, and patterns that begin with a plain character, an input is seen exactly
      when its name has no unusual character. */
  lemma GitSeesExactly(w: World, sel: Selector)
    requires PrintsAsGit(w) && PlainHeads(w, sel)
    ensures forall image, p :: image in sel && IsInput(w, image, p) ==> (IsSeen(w, image, p) <==> !HasUnusual(p))
    ensures SeesAll(w, sel) <==> forall image, p :: image in sel && IsInput(w, image, p) ==> !HasUnusual(p)
  {
    forall image, p | image in sel && IsInput(w, image, p)
      ensures IsSeen(w, image, p) <==> !HasUnusual(p)
    {
      if HasUnusual(p) { QuotedIsUnseen(w, image, w.printed(p)); }
    }
  }

  // ---------------------------------------------------------------------------------------------
  // The boundary check of the build.

  datatype BoundaryError = NotAnAncestor | InputsChanged(images: seq<Image>)

  /** No image input changed from the image source commit to the release commit. */
  function ImageSourceBoundary(w: World, sel: Selector, source: CommitId, release: CommitId): Result<(), BoundaryError> {
    if !w.isAncestor(source, release) then Err(NotAnAncestor)
    else
      var affected := AffectedImages(w, sel, Diff(w.tree(source), w.tree(release)));
      if affected != [] then Err(InputsChanged(affected)) else Ok(())
  }

  // ---------------------------------------------------------------------------------------------
  // The evidence walk.

  datatype LookupError =
    | NotTrusted(commit: CommitId)        // the tag names a run that is not trusted
    | Ambiguous(commit: CommitId)         // more than one trusted run
    | ChangesInputs(commit: CommitId)     // an unpublished commit changes an input
    | Exhausted

  /** Whether a commit changes an image input against its first parent. A root commit does. */
  predicate ChangesImages(w: World, sel: Selector, c: CommitId) {
    var parents := w.parents(c);
    parents == [] || AffectedImages(w, sel, Diff(w.tree(parents[0]), w.tree(c))) != []
  }

  /** Each commit of the list is the first parent of the one before it. */
  ghost predicate Linked(w: World, commits: seq<CommitId>) {
    forall i, j :: 0 <= i && j == i + 1 && j < |commits| ==> IsFirstParent(w, commits[j], commits[i])
  }

  predicate IsFirstParent(w: World, parent: CommitId, c: CommitId) {
    w.parents(c) != [] && w.parents(c)[0] == parent
  }

  /** The first-parent history of a commit, itself first, at most `n` long. */
  function FirstParents(w: World, c: CommitId, n: nat): (r: seq<CommitId>)
    ensures 0 < n ==> r != [] && r[0] == c
    ensures |r| <= n
    decreases n
  {
    if n == 0 then []
    else if w.parents(c) == [] then [c]
    else [c] + FirstParents(w, w.parents(c)[0], n - 1)
  }

  lemma {:induction false} FirstParentsLinked(w: World, c: CommitId, n: nat)
    ensures Linked(w, FirstParents(w, c, n))
    decreases n
  {
    if n > 0 && w.parents(c) != [] {
      var parent := w.parents(c)[0];
      FirstParentsLinked(w, parent, n - 1);
      var rest, all := FirstParents(w, parent, n - 1), FirstParents(w, c, n);
      assert all == [c] + rest;
      forall i, j | 0 <= i && j == i + 1 && j < |all|
        ensures IsFirstParent(w, all[j], all[i])
      {
        if 0 < i {
          assert all[i] == rest[i - 1] && all[j] == rest[j - 1];
        }
      }
    }
  }

  /** The walk passes a commit that has no trusted run and changes no image input. */
  predicate Passes(w: World, sel: Selector, trusted: CommitId -> seq<nat>, c: CommitId) {
    trusted(c) == [] && !ChangesImages(w, sel, c)
  }

  /** The walk's answer at the first commit it does not pass. */
  function Verdict(trusted: CommitId -> seq<nat>, selected: Option<nat>, c: CommitId): Result<(CommitId, nat), LookupError> {
    var runs := trusted(c);
    if runs == [] then Err(ChangesInputs(c))
    else if selected.Some? then
      if selected.value in runs then Ok((c, selected.value)) else Err(NotTrusted(c))
    else if |runs| > 1 then Err(Ambiguous(c))
    else Ok((c, runs[0]))
  }

  /** The index of the first commit that is not passed, or the length. */
  function FirstStop(w: World, sel: Selector, trusted: CommitId -> seq<nat>, commits: seq<CommitId>): (k: nat)
    ensures k <= |commits|
    ensures forall i :: 0 <= i < k ==> Passes(w, sel, trusted, commits[i])
    ensures k < |commits| ==> !Passes(w, sel, trusted, commits[k])
  {
    if commits == [] || !Passes(w, sel, trusted, commits[0]) then 0
    else 1 + FirstStop(w, sel, trusted, commits[1..])
  }

  /** The loop over a first-parent history. It ends at the first commit it cannot pass, so no nearer
      commit had a trusted run and no passed commit changed an input. */
  method Walk(w: World, sel: Selector, trusted: CommitId -> seq<nat>, commits: seq<CommitId>, selected: Option<nat>)
    returns (r: Result<(CommitId, nat), LookupError>)
    ensures r == Nearest(w, sel, trusted, commits, selected)
  {
    ghost var stop := FirstStop(w, sel, trusted, commits);
    for i := 0 to |commits|
      invariant i <= stop
    {
      var commit := commits[i];
      var runs := trusted(commit);
      if runs != [] && selected.Some? {
        if selected.value !in runs { return Err(NotTrusted(commit)); }
        return Ok((commit, selected.value));
      }
      if |runs| > 1 { return Err(Ambiguous(commit)); }
      if runs != [] { return Ok((commit, runs[0])); }
      if ChangesImages(w, sel, commit) { return Err(ChangesInputs(commit)); }
      assert Passes(w, sel, trusted, commit);
    }
    return Err(Exhausted);
  }

  /** The verdict at the first commit that is not passed. */
  function Nearest(w: World, sel: Selector, trusted: CommitId -> seq<nat>, commits: seq<CommitId>, selected: Option<nat>)
    : Result<(CommitId, nat), LookupError>
  {
    var k := FirstStop(w, sel, trusted, commits);
    if k == |commits| then Err(Exhausted) else Verdict(trusted, selected, commits[k])
  }

  method FindNearest(w: World, sel: Selector, trusted: CommitId -> seq<nat>, release: CommitId, selected: Option<nat>)
    returns (r: Result<(CommitId, nat), LookupError>)
    ensures r == Nearest(w, sel, trusted, FirstParents(w, release, MAX_COMMITS), selected)
  {
    r := Walk(w, sel, trusted, FirstParents(w, release, MAX_COMMITS), selected);
  }

  /** Git's ancestry holds of a commit and itself, and passes on through first parents. */
  ghost predicate AncestryOk(w: World) {
    && (forall c :: w.isAncestor(c, c))
    && (forall a, c :: w.parents(c) != [] && w.isAncestor(a, w.parents(c)[0]) ==> w.isAncestor(a, c))
  }

  /** A path that differs over two steps differs in one of them. */
  lemma DiffTelescopes(s: Tree, t: Tree, u: Tree)
    ensures Diff(s, u) <= Diff(s, t) + Diff(t, u)
  {
  }

  /** The diff over passed commits touches no image: the diffs telescope. */
  lemma {:induction false} PassedCommitsTouchNothing(w: World, sel: Selector, trusted: CommitId -> seq<nat>,
                                                    commits: seq<CommitId>, from: nat, k: nat)
    requires from <= k < |commits| && AncestryOk(w)
    requires Linked(w, commits)
    requires forall i :: 0 <= i < k ==> Passes(w, sel, trusted, commits[i])
    ensures forall image :: image in sel ==> !Touched(w, image, Diff(w.tree(commits[k]), w.tree(commits[from])))
    ensures w.isAncestor(commits[k], commits[from])
    decreases k - from
  {
    if from < k {
      PassedCommitsTouchNothing(w, sel, trusted, commits, from + 1, k);
      assert IsFirstParent(w, commits[from + 1], commits[from]);
      assert Passes(w, sel, trusted, commits[from]);
      AffectedIsTouched(w, sel, Diff(w.tree(commits[from + 1]), w.tree(commits[from])));
      DiffTelescopes(w.tree(commits[k]), w.tree(commits[from + 1]), w.tree(commits[from]));
    }
  }

  /** So over passed commits the image inputs do not change, when the inputs that differ at the two ends are
      seen. */
  lemma PassedCommitsKeepInputs(w: World, sel: Selector, trusted: CommitId -> seq<nat>, commits: seq<CommitId>, k: nat)
    requires k < |commits| && AncestryOk(w) && Linked(w, commits)
    requires forall i :: 0 <= i < k ==> Passes(w, sel, trusted, commits[i])
    requires AllSeen(w, sel, Diff(w.tree(commits[k]), w.tree(commits[0])))
    ensures SameInputs(w, sel, w.tree(commits[k]), w.tree(commits[0]))
  {
    PassedCommitsTouchNothing(w, sel, trusted, commits, 0, k);
    forall image | image in sel
      ensures SameInputsOf(w, image, w.tree(commits[k]), w.tree(commits[0]))
    {
      UntouchedIsSameInputs(w, image, w.tree(commits[k]), w.tree(commits[0]));
    }
  }

  lemma {:induction false} NothingAffectedIfUntouched(w: World, sel: Selector, paths: set<Path>)
    requires forall image :: image in sel ==> !Touched(w, image, paths)
    ensures AffectedImages(w, sel, paths) == []
  {
    if sel != [] {
      assert sel[0] in sel;
      NothingAffectedIfUntouched(w, sel[1..], paths);
    }
  }

  /** The commit at `k` is the nearest with a trusted run. */
  ghost predicate IsNearest(trusted: CommitId -> seq<nat>, commits: seq<CommitId>, k: int) {
    0 <= k < |commits| && trusted(commits[k]) != [] && forall i :: 0 <= i < k ==> trusted(commits[i]) == []
  }

  /** The walk stops with a result at the nearest commit that has a trusted run. */
  lemma FoundIsNearest(w: World, sel: Selector, trusted: CommitId -> seq<nat>, commits: seq<CommitId>, selected: Option<nat>)
    requires Nearest(w, sel, trusted, commits, selected).Ok?
    ensures var (source, run) := Nearest(w, sel, trusted, commits, selected).value;
            var k := FirstStop(w, sel, trusted, commits);
            && IsNearest(trusted, commits, k) && commits[k] == source
            && run in trusted(source) && (selected.Some? ==> run == selected.value)
  {
    assert forall i :: 0 <= i < FirstStop(w, sel, trusted, commits) ==> Passes(w, sel, trusted, commits[i]);
  }

  lemma WalkMeetsBoundary(w: World, sel: Selector, trusted: CommitId -> seq<nat>, commits: seq<CommitId>, k: nat)
    requires k < |commits| && AncestryOk(w) && Linked(w, commits)
    requires forall i :: 0 <= i < k ==> Passes(w, sel, trusted, commits[i])
    ensures ImageSourceBoundary(w, sel, commits[k], commits[0]).Ok?
  {
    PassedCommitsTouchNothing(w, sel, trusted, commits, 0, k);
    NothingAffectedIfUntouched(w, sel, Diff(w.tree(commits[k]), w.tree(commits[0])));
  }

  /** The evidence the walk finds always satisfies the boundary check of the build, whatever the number of
      commits it looked at and however names are printed. No commit before it had a trusted run. It agrees
      with the release on all image inputs when those that differ are seen. */
  lemma EvidenceMeetsBoundary(w: World, sel: Selector, trusted: CommitId -> seq<nat>, release: CommitId,
                              selected: Option<nat>, n: nat)
    requires AncestryOk(w)
    requires Nearest(w, sel, trusted, FirstParents(w, release, n), selected).Ok?
    ensures var commits := FirstParents(w, release, n);
            var (source, run) := Nearest(w, sel, trusted, commits, selected).value;
            && run in trusted(source) && (selected.Some? ==> run == selected.value)
            && (exists k :: IsNearest(trusted, commits, k) && commits[k] == source)
            && ImageSourceBoundary(w, sel, source, release).Ok?
            && (AllSeen(w, sel, Diff(w.tree(source), w.tree(release))) ==> SameInputs(w, sel, w.tree(source), w.tree(release)))
  {
    var commits := FirstParents(w, release, n);
    var k := FirstStop(w, sel, trusted, commits);
    FirstParentsLinked(w, release, n);
    FoundIsNearest(w, sel, trusted, commits, selected);
    WalkMeetsBoundary(w, sel, trusted, commits, k);
    if AllSeen(w, sel, Diff(w.tree(commits[k]), w.tree(release))) {
      PassedCommitsKeepInputs(w, sel, trusted, commits, k);
    }
  }
}
