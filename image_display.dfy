/**
 * The image carousel: a fixed ring of five subjects, a current index that
 * the Previous, Next and Random buttons replace through pure updaters, the
 * subject it reports to the conversation, and the "Image n of 5" counter.
 */
module ImageDisplay {

  datatype Image = Image(src: string, title: string, description: string)

  const Images: seq<Image> := [
    Image("https://images.unsplash.com/photo-1633722715463-d30f4f325e24?w=800&h=600&fit=crop",
      "Friendly Dog", "A happy golden retriever playing outdoors"),
    Image("https://images.unsplash.com/photo-1572930621288-014e490da469?w=800&h=600&fit=crop",
      "Starry Night Sky",
      "There are houses and trees under a beautiful starry night sky also mountain is in the background"),
    Image("https://images.unsplash.com/photo-1769788873505-c2d2f570ae0c?w=800&h=600&fit=crop",
      "Mountain Landscape", "Beautiful mountain scenery"),
    Image("https://images.unsplash.com/photo-1511632765486-a01980e01a18?w=800&h=600&fit=crop",
      "Ocean Waves", "Peaceful ocean landscape"),
    Image("https://images.unsplash.com/photo-1558898478-9ac0461266c1?w=800&h=600&fit=crop",
      "Butterfly Garden", "Orange colored butterflies sitting in a garden")
  ]

  /** The subject the application shows the conversation before the carousel reports one. */
  const AppInitialTitle: string := "Friendly Dog"
  const AppInitialDescription: string := "A happy golden retriever playing outdoors"

  /** `handleNext`'s updater: the last index wraps to 0, any other moves one forward. */
  function NextIndex(prev: nat): (r: nat)
    requires prev < |Images|
    ensures r < |Images|
    ensures r == (prev + 1) % |Images|
  {
    if prev == |Images| - 1 then 0 else prev + 1
  }

  /** `handlePrevious`'s updater: 0 wraps to the last index, any other moves one back. */
  function PreviousIndex(prev: nat): (r: nat)
    requires prev < |Images|
    ensures r < |Images|
    ensures r == (prev + |Images| - 1) % |Images|
  {
    if prev == 0 then |Images| - 1 else prev - 1
  }

  /** Next then Previous returns to where it started. */
  lemma NextThenPrevious(i: nat)
    requires i < |Images|
    ensures PreviousIndex(NextIndex(i)) == i
  {
  }

  /** Previous then Next returns to where it started. */
  lemma PreviousThenNext(i: nat)
    requires i < |Images|
    ensures NextIndex(PreviousIndex(i)) == i
  {
  }

  /** The index after pressing Next `k` times. */
  function NextTimes(i: nat, k: nat): (r: nat)
    requires i < |Images|
    ensures r < |Images|
  {
    if k == 0 then i else NextIndex(NextTimes(i, k - 1))
  }

  /** Pressing Next `k` times moves `k` places around the ring. */
  lemma {:induction false} NextTimesRotates(i: nat, k: nat)
    requires i < |Images|
    ensures NextTimes(i, k) == (i + k) % |Images|
  {
    if k > 0 {
      NextTimesRotates(i, k - 1);
    }
  }

  /** Pressing Next once per image comes back to the same image. */
  lemma FullTurnIsIdentity(i: nat)
    requires i < |Images|
    ensures NextTimes(i, |Images|) == i
  {
    NextTimesRotates(i, |Images|);
  }

  /** `Math.floor(u * len)` for a `Math.random()` draw `u`, which lies in [0, 1). */
  function RandomIndex(u: real, len: nat): (r: nat)
    requires 0.0 <= u < 1.0 && 0 < len
    ensures r < len
  {
    var x := u * len as real;
    assert x < len as real;
    x.Floor
  }

  /** The title and description of the image at index `i`. */
  function SubjectAt(i: nat): (string, string)
    requires i < |Images|
  {
    (Images[i].title, Images[i].description)
  }

  /** No two images share a title, so the reported subject identifies the image. */
  lemma SubjectIdentifiesImage(i: nat, j: nat)
    requires i < |Images| && j < |Images|
    ensures SubjectAt(i) == SubjectAt(j) ==> i == j
  {
    assert forall k :: 0 <= k < |Images| ==> Images[k].title[0] == "FSMOB"[k];
  }

  /** Previous and Next always hand a different subject to the conversation. */
  lemma MoveChangesSubject(i: nat)
    requires i < |Images|
    ensures SubjectAt(NextIndex(i)) != SubjectAt(i)
    ensures SubjectAt(PreviousIndex(i)) != SubjectAt(i)
  {
    SubjectIdentifiesImage(NextIndex(i), i);
    SubjectIdentifiesImage(PreviousIndex(i), i);
  }

  /** The carousel component: its state is the current index. */
  class Carousel {
    var index: nat

    ghost predicate Valid()
      reads this
    {
      index < |Images|
    }

    /** The index starts at 0, showing the application's initial subject. */
    constructor ()
      ensures Valid() && index == 0
      ensures CurrentImage().title == AppInitialTitle && CurrentImage().description == AppInitialDescription
    {
      index := 0;
    }

    /** `images[currentImageIndex]`. */
    function CurrentImage(): (img: Image)
      reads this
      requires Valid()
      ensures img == Images[index] && img in Images
    {
      Images[index]
    }

    /** The title and description handed to `onImageChange`. */
    function ReportedSubject(): (subject: (string, string))
      reads this
      requires Valid()
      ensures subject == SubjectAt(index)
      ensures subject.0 == CurrentImage().title && subject.1 == CurrentImage().description
    {
      (CurrentImage().title, CurrentImage().description)
    }

    /** The counter "Image n of total": a 1-based position that never exceeds the total of 5. */
    function Counter(): (c: (nat, nat))
      reads this
      requires Valid()
      ensures 1 <= c.0 <= c.1 == 5
      ensures Images[c.0 - 1] == CurrentImage()
    {
      (index + 1, |Images|)
    }

    method HandlePrevious()
      requires Valid()
      modifies this
      ensures Valid() && index == PreviousIndex(old(index))
      ensures ReportedSubject() == SubjectAt(PreviousIndex(old(index)))
    {
      index := PreviousIndex(index);
    }

    method HandleNext()
      requires Valid()
      modifies this
      ensures Valid() && index == NextIndex(old(index))
      ensures ReportedSubject() == SubjectAt(NextIndex(old(index)))
    {
      index := NextIndex(index);
    }

    /** `handleRandomImage`, with the random draw `u` as a parameter. */
    method HandleRandomImage(u: real)
      requires Valid() && 0.0 <= u < 1.0
      modifies this
      ensures Valid() && index == RandomIndex(u, |Images|)
    {
      index := RandomIndex(u, |Images|);
    }
  }
}
