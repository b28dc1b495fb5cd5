/**
 * The Gallery page: the album table and the carousel card that shows one
 * album at a time, one image at a time.
 */
module Gallery {
  import opened Types
  import opened Marks

  /**
   * One photograph of an album, with its caption in the current language.
   * The page calls the caption field `label`, a reserved word in Dafny;
   * it is the image's alternative text and the card's heading.
   */
  datatype GalleryImage = GalleryImage(src: string, caption: string, desc: string)

  /** An album: a key, an English and an Amharic title, and its photographs. */
  datatype Album = Album(id: string, title: string, titleAm: string, images: seq<GalleryImage>)

  // ---------------------------------------------------------------------
  // Index arithmetic of the carousel
  // ---------------------------------------------------------------------

  /**
   * The index after the "next" button on an album of n images:
   * (i + 1) % n, whose operands are never negative, so the remainder of
   * the page's script and Dafny's agree.
   */
  function NextIndex(i: nat, n: nat): (r: nat)
    requires n >= 1
    ensures r < n
    ensures i < n ==> r == (if i == n - 1 then 0 else i + 1)
  {
    (i + 1) % n
  }

  /**
   * The index after the "previous" button: (i - 1 + n) % n. With n >= 1 and
   * i >= 0 the dividend is never negative, so again both remainders agree.
   */
  function PrevIndex(i: nat, n: nat): (r: nat)
    requires n >= 1
    ensures r < n
    ensures i < n ==> r == (if i == 0 then n - 1 else i - 1)
  {
    (i - 1 + n) % n
  }

  /** "Previous" undoes "next". */
  lemma PrevAfterNext(i: nat, n: nat)
    requires n >= 1 && i < n
    ensures PrevIndex(NextIndex(i, n), n) == i
  {
  }

  /** "Next" undoes "previous". */
  lemma NextAfterPrev(i: nat, n: nat)
    requires n >= 1 && i < n
    ensures NextIndex(PrevIndex(i, n), n) == i
  {
  }

  /** On a one-image album both buttons leave the index at 0. */
  lemma SingleImageIsFixed(i: nat)
    requires i < 1
    ensures NextIndex(i, 1) == 0 && PrevIndex(i, 1) == 0
  {
  }

  /** The index after k presses of "next", starting at i. */
  function NextTimes(i: nat, k: nat, n: nat): (r: nat)
    requires n >= 1
    decreases k
  {
    if k == 0 then i else NextIndex(NextTimes(i, k - 1, n), n)
  }

  /** The index after k presses of "previous", starting at i. */
  function PrevTimes(i: nat, k: nat, n: nat): (r: nat)
    requires n >= 1
    decreases k
  {
    if k == 0 then i else PrevIndex(PrevTimes(i, k - 1, n), n)
  }

  /** Euclidean division: a is its quotient times n plus its remainder. */
  lemma DivMod(a: int, n: nat)
    requires n >= 1
    ensures a == (a / n) * n + a % n
  {
  }

  /** A positive multiple of n is at least n. */
  lemma MulAtLeast(d: int, n: int)
    requires d >= 1 && n >= 1
    ensures d * n >= n
  {
  }

  /** The remainder of q * n + r by n is r, for every 0 <= r < n. */
  lemma ModUnique(a: int, n: int, q: int, r: int)
    requires n >= 1 && 0 <= r < n && a == q * n + r
    ensures a % n == r
  {
    var q0, r0 := a / n, a % n;
    DivMod(a, n);
    assert (q - q0) * n == r0 - r;
    if q > q0 {
      MulAtLeast(q - q0, n);
    } else if q < q0 {
      MulAtLeast(q0 - q, n);
    }
  }

  /** One more step forward is one more unit of remainder, wrapping at n. */
  lemma NextOfRemainder(a: int, n: nat)
    requires n >= 1
    ensures NextIndex(a % n, n) == (a + 1) % n
  {
    var q := a / n;
    DivMod(a, n);
    if a % n == n - 1 {
      ModUnique(a + 1, n, q + 1, 0);
    } else {
      ModUnique(a + 1, n, q, a % n + 1);
    }
  }

  /** One more step backward is one less unit of remainder, wrapping at 0. */
  lemma PrevOfRemainder(a: int, n: nat)
    requires n >= 1
    ensures PrevIndex(a % n, n) == (a - 1) % n
  {
    var q := a / n;
    DivMod(a, n);
    if a % n == 0 {
      ModUnique(a - 1, n, q - 1, n - 1);
    } else {
      ModUnique(a - 1, n, q, a % n - 1);
    }
  }

  /** k presses of "next" rotate the index forward by k, modulo n. */
  lemma {:induction false} NextTimesRotates(i: nat, k: nat, n: nat)
    requires n >= 1 && i < n
    ensures NextTimes(i, k, n) == (i + k) % n
  {
    if k == 0 {
      ModUnique(i, n, 0, i);
    } else {
      NextTimesRotates(i, k - 1, n);
      NextOfRemainder(i + k - 1, n);
    }
  }

  /** k presses of "previous" rotate the index backward by k, modulo n. */
  lemma {:induction false} PrevTimesRotates(i: nat, k: nat, n: nat)
    requires n >= 1 && i < n
    ensures PrevTimes(i, k, n) == (i - k) % n
  {
    if k == 0 {
      ModUnique(i, n, 0, i);
    } else {
      PrevTimesRotates(i, k - 1, n);
      PrevOfRemainder(i - (k - 1), n);
    }
  }

  /** n presses of either button on an album of n images come back to the start. */
  lemma FullCycle(i: nat, n: nat)
    requires n >= 1 && i < n
    ensures NextTimes(i, n, n) == i
    ensures PrevTimes(i, n, n) == i
  {
    NextTimesRotates(i, n, n);
    PrevTimesRotates(i, n, n);
    ModUnique(i + n, n, 1, i);
    ModUnique(i - n, n, -1, i);
  }

  /** Taking a multiple of n away does not change the remainder by n. */
  lemma ModShift(a: int, n: nat, q: int)
    requires n >= 1
    ensures (a - q * n) % n == a % n
  {
    DivMod(a, n);
    assert a - q * n == (a / n - q) * n + a % n;
    ModUnique(a - q * n, n, a / n - q, a % n);
  }

  /** k presses of "next" followed by k of "previous" return to the start. */
  lemma NextThenPrevTimes(i: nat, k: nat, n: nat)
    requires n >= 1 && i < n
    ensures PrevTimes(NextTimes(i, k, n), k, n) == i
  {
    NextTimesRotates(i, k, n);
    var j := (i + k) % n;
    PrevTimesRotates(j, k, n);
    DivMod(i + k, n);
    ModShift(i, n, (i + k) / n);
    ModUnique(i, n, 0, i);
  }

  // ---------------------------------------------------------------------
  // What a card shows
  // ---------------------------------------------------------------------

  /** The choice `lang === 'am' ? am : en` that every caption makes. */
  function Pick(lang: Language, am: string, en: string): (s: string)
  {
    if lang == Am then am else en
  }

  /** What a carousel card renders for an album, a language and an index. */
  datatype CardView = CardView(
    title: string,           // the album title shown above the caption
    imageActive: seq<bool>,  // per image: shown (true) or faded out
    showControls: bool,      // whether the previous/next buttons exist
    dots: seq<bool>,         // per indicator dot: highlighted; empty when no dots exist
    counter: nat,            // the "k" of the "k / n" tag
    total: nat,              // the "n" of the "k / n" tag
    caption: string,         // caption heading of the current image
    desc: string)            // caption text of the current image

  /**
   * The card for album a in language lang with current index idx: the
   * current image's caption, exactly one image and (when there are dots)
   * exactly one dot marked at idx, controls and dots only for albums of
   * more than one image, and a counter between 1 and n.
   */
  function Render(a: Album, lang: Language, idx: nat): (v: CardView)
    requires idx < |a.images|
    ensures v.title == (if lang == Am then a.titleAm else a.title)
    ensures OnlyAt(v.imageActive, idx) && |v.imageActive| == |a.images|
    ensures CountTrue(v.imageActive) == 1
    ensures v.showControls <==> |a.images| > 1
    ensures v.showControls ==> |v.dots| == |a.images| && OnlyAt(v.dots, idx) && CountTrue(v.dots) == 1
    ensures !v.showControls ==> v.dots == []
    ensures 1 <= v.counter <= v.total == |a.images| && v.counter - 1 == idx
    ensures v.caption == a.images[idx].caption && v.desc == a.images[idx].desc
  {
    var n := |a.images|;
    var active := seq(n, j => j == idx);
    OnlyAtCountsOne(active, idx);
    CardView(
      Pick(lang, a.titleAm, a.title),
      active,
      n > 1,
      if n > 1 then active else [],
      idx + 1,
      n,
      a.images[idx].caption,
      a.images[idx].desc)
  }

  // ---------------------------------------------------------------------
  // The carousel card's state
  // ---------------------------------------------------------------------

  /**
   * One carousel card: the album and language it was last rendered with
   * (its props) and the index of the image on show (its state).
   */
  class Carousel {
    var album: Album
    var lang: Language
    var currentIndex: nat

    /** The index always names an image of the album. */
    ghost predicate Valid()
      reads this
    {
      currentIndex < |album.images|
    }

    /** A new card starts at the first image. */
    constructor (album: Album, lang: Language)
      requires |album.images| >= 1
      ensures Valid()
      ensures this.album == album && this.lang == lang && currentIndex == 0
    {
      this.album := album;
      this.lang := lang;
      currentIndex := 0;
    }

    /** The "next" button. */
    method NextSlide()
      requires Valid()
      modifies this
      ensures Valid()
      ensures currentIndex == NextIndex(old(currentIndex), |album.images|)
      ensures album == old(album) && lang == old(lang)
    {
      currentIndex := (currentIndex + 1) % |album.images|;
    }

    /** The "previous" button. */
    method PrevSlide()
      requires Valid()
      modifies this
      ensures Valid()
      ensures currentIndex == PrevIndex(old(currentIndex), |album.images|)
      ensures album == old(album) && lang == old(lang)
    {
      currentIndex := (currentIndex - 1 + |album.images|) % |album.images|;
    }

    /**
     * The page renders the card again with new props under the same key
     * (the album id), for instance after a language switch: the card keeps
     * its index, which stays valid when the image count is unchanged.
     */
    method Rerender(album': Album, lang': Language)
      requires Valid()
      requires album'.id == album.id && |album'.images| == |album.images|
      modifies this
      ensures Valid()
      ensures album == album' && lang == lang' && currentIndex == old(currentIndex)
    {
      album := album';
      lang := lang';
    }
  }
}
