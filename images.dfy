/**
 * `subir_imagenes_al_producto`, the same code in the script that creates new
 * products and in the one that creates the products missing from Shopify:
 * the image files of the SKU's folder are split into a primary image, posted
 * at position 1, and the remaining ones, posted from position 2 on.
 */
module Images {
  import opened Common

  /** `img.lower().endswith(('.png', '.jpg', '.jpeg', '.gif'))`. */
  predicate IsImageName(name: string)
  {
    var l := Lower(name);
    EndsWith(l, ".png") || EndsWith(l, ".jpg") || EndsWith(l, ".jpeg") || EndsWith(l, ".gif")
  }

  /** The image files of a folder listing, in listing order. */
  function ImageFiles(names: seq<string>): (r: seq<string>)
    ensures |r| <= |names|
    ensures forall n :: n in r <==> n in names && IsImageName(n)
  {
    if names == [] then []
    else
      var rest := ImageFiles(names[1..]);
      assert forall n :: n in names <==> n == names[0] || n in names[1..];
      if IsImageName(names[0]) then [names[0]] + rest else rest
  }

  /** `"_full" in os.path.basename(imagen).lower()`. */
  predicate IsFull(name: string)
  {
    ContainsSub(Lower(name), "_full")
  }

  /** The primary image (None only for an empty folder) and the remaining ones, in posting order. */
  datatype Split = Split(principal: Option<string>, restantes: seq<string>)

  /**
   * The split the loop makes: an image becomes the primary when its name
   * holds "_full" or no primary is chosen yet, and is otherwise appended to
   * the remaining ones. A primary replaced by a later "_full" image is
   * dropped.
   */
  function SplitAsWritten(imgs: seq<string>): (r: Split)
    ensures r.principal.None? <==> imgs == []
    ensures r.principal.Some? ==> r.principal.value in imgs
    ensures forall n :: n in r.restantes ==> n in imgs && !IsFull(n)
  {
    if imgs == [] then Split(None, [])
    else
      var p := SplitAsWritten(imgs[..|imgs| - 1]);
      var img := imgs[|imgs| - 1];
      if IsFull(img) || p.principal.None? then Split(Some(img), p.restantes)
      else Split(p.principal, p.restantes + [img])
  }

  lemma SplitAsWrittenStep(imgs: seq<string>, i: int)
    requires 0 <= i < |imgs|
    ensures var p := SplitAsWritten(imgs[..i]);
      SplitAsWritten(imgs[..i + 1]) ==
        if IsFull(imgs[i]) || p.principal.None? then Split(Some(imgs[i]), p.restantes)
        else Split(p.principal, p.restantes + [imgs[i]])
  {
    Common.PrefixStep(imgs, i);
  }

  /** The loop of `subir_imagenes_al_producto` that picks the primary image. */
  method PartitionImages(imgs: seq<string>) returns (principal: Option<string>, restantes: seq<string>)
    ensures Split(principal, restantes) == SplitAsWritten(imgs)
  {
    principal := None;
    restantes := [];
    var i := 0;
    while i < |imgs|
      invariant 0 <= i <= |imgs|
      invariant Split(principal, restantes) == SplitAsWritten(imgs[..i])
    {
      principal, restantes := PlaceImage(imgs, i, principal, restantes);
      i := i + 1;
    }
    Common.TakeAll(imgs);
  }

  /** One turn of that loop: image `i` becomes the primary or joins the remaining ones. */
  method PlaceImage(imgs: seq<string>, i: nat, principal: Option<string>, restantes: seq<string>)
    returns (principal': Option<string>, restantes': seq<string>)
    requires i < |imgs|
    requires Split(principal, restantes) == SplitAsWritten(imgs[..i])
    ensures Split(principal', restantes') == SplitAsWritten(imgs[..i + 1])
  {
    SplitAsWrittenStep(imgs, i);
    principal', restantes' := principal, restantes;
    if IsFull(imgs[i]) || principal.None? {
      principal' := Some(imgs[i]);
    } else {
      restantes' := restantes + [imgs[i]];
    }
  }

  /** The index of the last image whose name holds "_full", or -1. */
  function LastFull(imgs: seq<string>): (i: int)
    ensures -1 <= i < |imgs|
    ensures i >= 0 ==> IsFull(imgs[i])
    ensures forall j :: i < j < |imgs| ==> !IsFull(imgs[j])
  {
    if imgs == [] then -1
    else if IsFull(imgs[|imgs| - 1]) then |imgs| - 1
    else LastFull(imgs[..|imgs| - 1])
  }

  /** The images whose name does not hold "_full", in order. */
  function NonFull(imgs: seq<string>): (r: seq<string>)
    ensures |r| <= |imgs|
    ensures forall n :: n in r <==> n in imgs && !IsFull(n)
  {
    if imgs == [] then []
    else
      var rest := NonFull(imgs[..|imgs| - 1]);
      var img := imgs[|imgs| - 1];
      assert forall n :: n in imgs <==> n == img || n in imgs[..|imgs| - 1];
      if IsFull(img) then rest else rest + [img]
  }

  /** The index of the primary: the last "_full" image, or the first image when none is one. */
  function PrincipalIndex(imgs: seq<string>): (i: int)
    requires imgs != []
    ensures 0 <= i < |imgs|
  {
    if LastFull(imgs) >= 0 then LastFull(imgs) else 0
  }

  /**
   * The primary is the last "_full" image, or the first image when none is
   * one; the remaining images are exactly those after the first whose name
   * does not hold "_full", in listing order.
   */
  lemma {:induction false} SplitAsWrittenMeaning(imgs: seq<string>)
    requires imgs != []
    ensures SplitAsWritten(imgs) == Split(Some(imgs[PrincipalIndex(imgs)]), NonFull(imgs[1..]))
  {
    if |imgs| > 1 {
      SplitAsWrittenMeaning(imgs[..|imgs| - 1]);
      SplitMeaningStep(imgs);
    }
  }

  lemma SplitMeaningStep(imgs: seq<string>)
    requires |imgs| > 1
    requires var init := imgs[..|imgs| - 1];
      SplitAsWritten(init) == Split(Some(init[PrincipalIndex(init)]), NonFull(init[1..]))
    ensures SplitAsWritten(imgs) == Split(Some(imgs[PrincipalIndex(imgs)]), NonFull(imgs[1..]))
  {
    var n := |imgs|;
    var init := imgs[..n - 1];
    Common.TailOfInit(imgs);
    if !IsFull(imgs[n - 1]) {
      assert LastFull(imgs) == LastFull(init);
    }
  }

  /** Dropping an image with "_full" leaves fewer images than given. */
  lemma {:induction false} NonFullDropsFull(imgs: seq<string>, i: int)
    requires 0 <= i < |imgs| && IsFull(imgs[i])
    ensures |NonFull(imgs)| < |imgs|
  {
    var n := |imgs|;
    if i < n - 1 {
      NonFullDropsFull(imgs[..n - 1], i);
    }
  }

  /**
   * When the first image has no "_full" and a later one has, the first image
   * is neither the primary nor among the remaining ones: it is never posted,
   * and fewer images are posted than the folder holds.
   */
  lemma FirstImageLost(imgs: seq<string>, i: int)
    requires 0 < i < |imgs| && IsFull(imgs[i]) && !IsFull(imgs[0])
    ensures SplitAsWritten(imgs).principal != Some(imgs[0])
    ensures imgs[0] !in imgs[1..] ==> imgs[0] !in SplitAsWritten(imgs).restantes
    ensures 1 + |SplitAsWritten(imgs).restantes| < |imgs|
  {
    SplitAsWrittenMeaning(imgs);
    assert imgs[1..][i - 1] == imgs[i];
    NonFullDropsFull(imgs[1..], i - 1);
  }

  /**
   * The split the loop evidently intends: the same primary, with a primary
   * replaced by a later "_full" image moved to the remaining ones.
   */
  function SplitIntended(imgs: seq<string>): (r: Split)
    ensures r.principal.None? <==> imgs == []
    ensures r.principal.None? ==> r.restantes == []
  {
    if imgs == [] then Split(None, [])
    else
      var img := imgs[|imgs| - 1];
      IntendedStep(SplitIntended(imgs[..|imgs| - 1]), img, IsFull(img))
  }

  /** One turn of the intended loop, for an image that holds "_full" or not. */
  function IntendedStep(p: Split, img: string, full: bool): Split
  {
    if p.principal.None? then Split(Some(img), [])
    else if full then Split(Some(img), p.restantes + [p.principal.value])
    else Split(p.principal, p.restantes + [img])
  }

  /** The images one split posts, the primary first. */
  function Posted(s: Split): seq<string>
  {
    (if s.principal.Some? then [s.principal.value] else []) + s.restantes
  }

  /** The intended split picks the same primary as the loop. */
  lemma {:induction false} SplitIntendedSamePrincipal(imgs: seq<string>)
    ensures SplitIntended(imgs).principal == SplitAsWritten(imgs).principal
  {
    if imgs != [] {
      SplitIntendedSamePrincipal(imgs[..|imgs| - 1]);
    }
  }

  /** The intended split posts every image of the folder exactly as often as it occurs there. */
  lemma {:induction false} SplitIntendedPostsAll(imgs: seq<string>)
    ensures multiset(Posted(SplitIntended(imgs))) == multiset(imgs)
  {
    if imgs != [] {
      var init, img := imgs[..|imgs| - 1], imgs[|imgs| - 1];
      SplitIntendedPostsAll(init);
      IntendedStepPostsImage(SplitIntended(init), img, IsFull(img));
      assert imgs == init + [img];
    }
  }

  lemma IntendedStepPostsImage(p: Split, img: string, full: bool)
    requires p.principal.None? ==> p.restantes == []
    ensures multiset(Posted(IntendedStep(p, img, full))) == multiset(Posted(p)) + multiset{img}
  {
    if p.principal.Some? {
      var q := p.principal.value;
      assert Posted(p) == [q] + p.restantes;
      if full {
        assert Posted(IntendedStep(p, img, full)) == [img] + (p.restantes + [q]);
      } else {
        assert Posted(IntendedStep(p, img, full)) == [q] + (p.restantes + [img]);
      }
    }
  }

  /** The post requests made for a split, each with its `position`. */
  function Posts(s: Split): (r: seq<(string, nat)>)
    ensures |r| == |Posted(s)|
    ensures forall k :: 0 <= k < |r| ==> r[k].0 == Posted(s)[k]
    ensures s.principal.Some? ==> r[0].1 == 1
    ensures forall k :: |r| - |s.restantes| <= k < |r| ==> r[k].1 == k - (|r| - |s.restantes|) + 2
  {
    (if s.principal.Some? then [(s.principal.value, 1)] else [])
      + seq(|s.restantes|, k requires 0 <= k < |s.restantes| => (s.restantes[k], k + 2))
  }

  /** How many of the posts the shop accepts (status 200 or 201). */
  function AcceptedCount(posts: seq<(string, nat)>, accepts: ((string, nat)) -> bool): (n: nat)
    ensures n <= |posts|
  {
    if posts == [] then 0
    else AcceptedCount(posts[..|posts| - 1], accepts) + (if accepts(posts[|posts| - 1]) then 1 else 0)
  }

  /** The shop's answer to one post: 200/201, 429, or any other status or an exception. */
  datatype PostAnswer = Accepted | RateLimited | Failed

  /** The posts a pass counts as uploaded, given the shop's answers in that pass. */
  function Accepts(answer: ((string, nat)) -> PostAnswer): ((string, nat)) -> bool
  {
    p => answer(p) == Accepted
  }

  /**
   * One pass of the posting loops: None when some post is answered 429
   * (the pass is abandoned for a restart), otherwise the number of
   * accepted posts.
   */
  function PassOf(posts: seq<(string, nat)>, answer: ((string, nat)) -> PostAnswer): (r: Option<nat>)
    ensures r.None? <==> exists k :: 0 <= k < |posts| && answer(posts[k]) == RateLimited
    ensures r.Some? ==> r.value == AcceptedCount(posts, Accepts(answer))
  {
    if posts == [] then Some(0)
    else
      var init, last := posts[..|posts| - 1], posts[|posts| - 1];
      var prev := PassOf(init, answer);
      assert forall k :: 0 <= k < |init| ==> init[k] == posts[k];
      if prev.None? || answer(last) == RateLimited then None
      else Some(prev.value + (if answer(last) == Accepted then 1 else 0))
  }

  /**
   * `subir_imagenes_al_producto` with its restarts: `rounds[k]` is the
   * shop's answers during the k-th call. A 429 sleeps and calls the function
   * again from the first post, so the count returned is the one of the first
   * pass that meets no 429; None when every supplied pass meets one.
   */
  function Upload(posts: seq<(string, nat)>, rounds: seq<((string, nat)) -> PostAnswer>): (r: Option<nat>)
    ensures r.None? <==> forall k :: 0 <= k < |rounds| ==> PassOf(posts, rounds[k]).None?
    ensures r.Some? ==>
      exists k :: (0 <= k < |rounds| && PassOf(posts, rounds[k]) == r
        && forall j :: 0 <= j < k ==> PassOf(posts, rounds[j]).None?)
    ensures r.Some? ==> r.value <= |posts|
  {
    if rounds == [] then None
    else if PassOf(posts, rounds[0]).Some? then PassOf(posts, rounds[0])
    else
      var rest := Upload(posts, rounds[1..]);
      assert forall k :: 1 <= k < |rounds| ==> rounds[k] == rounds[1..][k - 1];
      rest
  }

  /** One call of the posting loops, stopping at the first 429. */
  method RunPass(posts: seq<(string, nat)>, answer: ((string, nat)) -> PostAnswer) returns (r: Option<nat>)
    ensures r == PassOf(posts, answer)
  {
    var subidas := 0;
    var idx := 0;
    while idx < |posts|
      invariant 0 <= idx <= |posts|
      invariant PassOf(posts[..idx], answer) == Some(subidas)
    {
      Common.PrefixStep(posts, idx);
      var a := answer(posts[idx]);
      if a == RateLimited {
        return None;
      }
      if a == Accepted {
        subidas := subidas + 1;
      }
      idx := idx + 1;
    }
    Common.TakeAll(posts);
    return Some(subidas);
  }

  /**
   * The posting loops of `subir_imagenes_al_producto`, restarted from the
   * first post after each 429 while answers are supplied.
   */
  method UploadImages(s: Split, rounds: seq<((string, nat)) -> PostAnswer>) returns (subidas: Option<nat>)
    ensures subidas == Upload(Posts(s), rounds)
  {
    var posts := Posts(s);
    var k := 0;
    while k < |rounds|
      invariant 0 <= k <= |rounds|
      invariant Upload(posts, rounds) == Upload(posts, rounds[k..])
    {
      var pass := RunPass(posts, rounds[k]);
      if pass.Some? {
        return pass;
      }
      assert rounds[k..][1..] == rounds[k + 1..];
      k := k + 1;
    }
    return None;
  }

  /**
   * A 429 in the middle of the first pass does not add the posts accepted
   * before it: when the restart accepts everything, the count is the
   * restart's own, although the first post was accepted twice.
   */
  lemma RestartCountsOwnPass(posts: seq<(string, nat)>, first: ((string, nat)) -> PostAnswer,
                             second: ((string, nat)) -> PostAnswer)
    requires 2 <= |posts| && first(posts[0]) == Accepted && first(posts[1]) == RateLimited
    requires forall p :: second(p) == Accepted
    ensures Upload(posts, [first, second]) == Some(|posts|)
  {
    AllAccepted(posts, Accepts(second));
    assert PassOf(posts, second).Some?;
  }

  /**
   * With the loop as written, a folder whose first image lacks "_full" while
   * a later one has it never reaches "all images uploaded", whatever the shop
   * answers in however many passes.
   */
  lemma AsWrittenNeverUploadsAll(imgs: seq<string>, i: int, rounds: seq<((string, nat)) -> PostAnswer>)
    requires 0 < i < |imgs| && IsFull(imgs[i]) && !IsFull(imgs[0])
    ensures Upload(Posts(SplitAsWritten(imgs)), rounds).Some? ==>
      Upload(Posts(SplitAsWritten(imgs)), rounds).value < |imgs|
  {
    FirstImageLost(imgs, i);
  }

  /** With the intended split, a first pass accepting every post gives "all images uploaded". */
  lemma {:induction false} IntendedUploadsAll(imgs: seq<string>, rounds: seq<((string, nat)) -> PostAnswer>)
    requires rounds != [] && forall p :: rounds[0](p) == Accepted
    ensures Upload(Posts(SplitIntended(imgs)), rounds) == Some(|imgs|)
  {
    SplitIntendedPostsAll(imgs);
    assert |multiset(Posted(SplitIntended(imgs)))| == |multiset(imgs)|;
    var posts := Posts(SplitIntended(imgs));
    AllAccepted(posts, Accepts(rounds[0]));
    assert PassOf(posts, rounds[0]).Some?;
  }

  lemma {:induction false} AllAccepted(posts: seq<(string, nat)>, accepts: ((string, nat)) -> bool)
    requires forall p :: accepts(p)
    ensures AcceptedCount(posts, accepts) == |posts|
  {
    if posts != [] {
      AllAccepted(posts[..|posts| - 1], accepts);
    }
  }
}
