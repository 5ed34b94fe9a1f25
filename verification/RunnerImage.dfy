/** The image a pool's runners are made from. A pool that gives its jobs a Docker daemon cannot run the
    stock image, which has no client for it, so the stock image is moved to its Docker variant. */
module RunnerImage {
  import opened Seqs
  import opened Text

  const STOCK := "ghcr.io/eyupio/zoomies-runner"

  const STOCK_DOCKER := "ghcr.io/eyupio/zoomies-runner-docker"

  /** An image reference: the tag with its colon, the digest with its at sign. */
  datatype Reference = Reference(repository: string, tag: string, digest: string)

  // ----- Taking a reference apart -----

  predicate NoneAfter(s: string, i: int, c: char) { forall k :: 0 <= k < |s| && i < k ==> s[k] != c }

  /** `strings.LastIndex` of one character, -1 when there is none. */
  function LastIndex(s: string, c: char): (n: int)
    ensures -1 <= n < |s| && NoneAfter(s, n, c)
    ensures n >= 0 ==> s[n] == c
  {
    if s == [] then -1 else if s[|s| - 1] == c then |s| - 1 else LastIndex(s[..|s| - 1], c)
  }

  /** The tag, when a colon comes after the last slash. */
  function SplitTag(ref: string): (string, string) {
    var i := LastIndex(ref, ':');
    if i >= 0 && NoneAfter(ref, i, '/') then (ref[..i], ref[i..]) else (ref, "")
  }

  /** `naming.SplitImage`. */
  function SplitImage(image: string): Reference {
    var at := Until(image, '@');
    var (repository, tag) := SplitTag(image[..at]);
    Reference(repository, tag, image[at..])
  }

  /** Nothing, or a colon and a word without a colon or a slash. */
  predicate IsTag(tag: string) {
    tag == "" || (tag[0] == ':' && NoneAfter(tag, 0, ':') && NoneAfter(tag, 0, '/'))
  }

  /** No colon after the last slash: one before it is a registry's port. */
  predicate Untagged(repository: string) { NoneAfter(repository, LastIndex(repository, '/'), ':') }

  predicate WellTagged(repository: string, tag: string) { IsTag(tag) && (tag == "" ==> Untagged(repository)) }

  predicate WellSplit(r: Reference) {
    && Without(r.repository, '@') && Without(r.tag, '@') && WellTagged(r.repository, r.tag)
    && (r.digest == "" || r.digest[0] == '@')
  }

  lemma TagIsWell(ref: string)
    ensures SplitTag(ref).0 + SplitTag(ref).1 == ref && WellTagged(SplitTag(ref).0, SplitTag(ref).1)
  {
    var i := LastIndex(ref, ':');
    if i >= 0 && NoneAfter(ref, i, '/') {
      Cut(ref, i);
    } else {
      ConcatNothing(ref);
    }
  }

  /** Taken apart, a reference is whole, and its parts are what they are called. */
  lemma SplitIsWell(image: string)
    ensures WellSplit(SplitImage(image))
    ensures SplitImage(image).repository + SplitImage(image).tag + SplitImage(image).digest == image
  {
    var at := Until(image, '@');
    var parts := SplitTag(image[..at]);
    Cut(image, at);
    TagIsWell(image[..at]);
    WithoutConcat(parts.0, parts.1, '@');
  }

  lemma TagIsTheOnly(repository: string, tag: string)
    requires WellTagged(repository, tag)
    ensures SplitTag(repository + tag) == (repository, tag)
  {
    var ref := repository + tag;
    if tag == "" {
      ConcatNothing(repository);
    } else {
      ConcatParts(repository, tag);
      assert forall k :: |repository| < k < |ref| ==> ref[k] == tag[k - |repository|];
      assert ref[|repository|] == ':';
    }
  }

  lemma UntilEnds(w: string, rest: string, c: char)
    requires Without(w, c) && (rest == "" || rest[0] == c)
    ensures Until(w + rest, c) == |w|
  {
    var s := w + rest;
    assert forall i :: 0 <= i < |w| ==> s[i] == w[i];
    assert rest != "" ==> s[|w|] == rest[0];
  }

  /** And there is no other way to take it apart. */
  lemma SplitIsTheOnly(r: Reference)
    requires WellSplit(r)
    ensures SplitImage(r.repository + r.tag + r.digest) == r
  {
    var ref := r.repository + r.tag;
    WithoutConcat(r.repository, r.tag, '@');
    UntilEnds(ref, r.digest, '@');
    ConcatParts(ref, r.digest);
    TagIsTheOnly(r.repository, r.tag);
  }

  // ----- The move -----

  /** From one repository to another, under a tag both were published with and no digest. */
  function Moved(image: string, from: string, to: string, published: string -> bool): string {
    var r := SplitImage(image);
    if r.repository != from || r.digest != "" || !published(r.tag) then image else to + r.tag
  }

  /** `config.RunnerImageFor`; which tags were published for both images is the build's own to know. */
  function RunnerImageFor(image: string, daemon: bool, published: string -> bool): string {
    if daemon then Moved(image, STOCK, STOCK_DOCKER, published) else image
  }

  /** The repository's image under a tag that was published. */
  predicate IsFrom(image: string, repository: string, published: string -> bool) {
    repository <= image && IsTag(image[|repository|..]) && Without(image[|repository|..], '@')
    && published(image[|repository|..])
  }

  predicate StockImage(image: string, published: string -> bool) { IsFrom(image, STOCK, published) }

  /** Names that are a repository each, the second the first and more. */
  predicate Variant(from: string, to: string) {
    Without(from, '@') && Untagged(from) && from < to && to[|from|] != ':'
  }

  lemma DockerIsAVariant()
    ensures Variant(STOCK, STOCK_DOCKER)
  {
    assert Without(STOCK, ':');
  }

  lemma MovedWhen(image: string, from: string, to: string, published: string -> bool)
    requires Variant(from, to)
    ensures Moved(image, from, to, published) ==
      if IsFrom(image, from, published) then to + image[|from|..] else image
  {
    var r := SplitImage(image);
    SplitIsWell(image);
    if IsFrom(image, from, published) {
      FromSplits(image, from, published);
    } else if r.repository == from && r.digest == "" && published(r.tag) {
      FromMayBeTold(r, image, from, published);
    }
  }

  lemma FromSplits(image: string, from: string, published: string -> bool)
    requires Without(from, '@') && Untagged(from) && IsFrom(image, from, published)
    ensures SplitImage(image) == Reference(from, image[|from|..], "")
  {
    PrefixCut(image, from);
    TaggedSplits(from, image[|from|..]);
  }

  lemma TaggedSplits(from: string, tag: string)
    requires Without(from, '@') && Without(tag, '@') && WellTagged(from, tag)
    ensures SplitImage(from + tag) == Reference(from, tag, "")
  {
    ConcatNothing(from + tag);
    SplitIsTheOnly(Reference(from, tag, ""));
  }

  lemma FromMayBeTold(r: Reference, image: string, from: string, published: string -> bool)
    requires WellSplit(r) && r.repository + r.tag + r.digest == image
    requires r.repository == from && r.digest == "" && published(r.tag)
    ensures IsFrom(image, from, published)
  {
    ConcatNothing(from + r.tag);
    ConcatParts(from, r.tag);
  }

  lemma MovedIsNotFrom(tag: string, from: string, to: string, published: string -> bool)
    requires Variant(from, to)
    ensures !IsFrom(to + tag, from, published)
  {
    var moved := to + tag;
    assert moved[|from|] == to[|from|];
    assert moved[|from|..] != "" && moved[|from|..][0] == to[|from|];
  }

  /** Exactly the stock image is moved, and it keeps its tag. */
  lemma MovedExactlyWhen(image: string, published: string -> bool)
    ensures RunnerImageFor(image, true, published)
      == if StockImage(image, published) then STOCK_DOCKER + image[|STOCK|..] else image
    ensures RunnerImageFor(image, true, published) != image <==> StockImage(image, published)
  {
    DockerIsAVariant();
    MovedWhen(image, STOCK, STOCK_DOCKER, published);
    if StockImage(image, published) {
      MovedIsNotFrom(image[|STOCK|..], STOCK, STOCK_DOCKER, published);
    }
  }

  /** What has been moved stays where it is. */
  lemma MovedOnce(image: string, published: string -> bool)
    ensures var moved := RunnerImageFor(image, true, published);
      !StockImage(moved, published) && RunnerImageFor(moved, true, published) == moved
  {
    MovedExactlyWhen(image, published);
    if StockImage(image, published) {
      DockerIsAVariant();
      MovedIsNotFrom(image[|STOCK|..], STOCK, STOCK_DOCKER, published);
    }
    MovedExactlyWhen(RunnerImageFor(image, true, published), published);
  }
}
