/**
 * The album table of the Gallery page: four albums whose captions are
 * chosen by the current language, and what a language switch does to
 * the cards built from it.
 */
module GalleryAlbums {
  import opened Types
  import opened Gallery

  // ---------------------------------------------------------------------
  // The album table
  // ---------------------------------------------------------------------

  /**
   * One photograph of the table with both of its captions; the page picks
   * the caption of the current language when it builds the table.
   */
  datatype ImageEntry = ImageEntry(src: string, captionAm: string, captionEn: string, descAm: string, descEn: string)

  /** The photograph as the page shows it in language lang. */
  function Localize(e: ImageEntry, lang: Language): (img: GalleryImage)
    ensures img.src == e.src
    ensures img.caption == (if lang == Am then e.captionAm else e.captionEn)
    ensures img.desc == (if lang == Am then e.descAm else e.descEn)
  {
    GalleryImage(e.src, Pick(lang, e.captionAm, e.captionEn), Pick(lang, e.descAm, e.descEn))
  }

  const ChurchRender := ImageEntry(
    "https://images.unsplash.com/photo-1548625361-195fe6144df3?q=80&w=2000&auto=format&fit=crop",
    "የቤተክርስቲያኑ ዲዛይን (3D)", "Church Render (3D)",
    "የወደፊት የቤተክርስቲያኑ ውጫዊ እይታ", "A vision of the future exterior structure")

  const SidePerspective := ImageEntry(
    "https://images.unsplash.com/photo-1510255370214-7292723c0422?q=80&w=1000&auto=format&fit=crop",
    "ጎንዮሽ እይታ", "Side Perspective",
    "ከአካባቢው ጋር ያለው ተስማሚነት", "Harmonious view with the surroundings")

  const AnnunciationIcon := ImageEntry(
    "https://images.unsplash.com/photo-1590076214667-c0f33b98c427?q=80&w=1000&auto=format&fit=crop",
    "የብሥራቱ አዶ", "Annunciation Icon",
    "ለቅድስት ማርያም እና ለቅዱስ ገብርኤል", "Venerable Icon of St. Mary & St. Gabriel")

  const SanctuaryMurals := ImageEntry(
    "https://images.unsplash.com/photo-1574621511211-f173f40f3531?q=80&w=1000&auto=format&fit=crop",
    "የቅዱሳን ስዕላት", "Sanctuary Murals",
    "በውስጥ የሚገኙ ቅዱሳን ምስሎች", "Holy paintings within the sanctuary")

  const Congregation := ImageEntry(
    "https://images.unsplash.com/photo-1566737236500-c8ac43014a67?q=80&w=1000&auto=format&fit=crop",
    "የማህበረሰቡ ሰልፍ", "Congregation",
    "ምዕመናን በበዓል ቀን", "Community gathering for major feast")

  const Epiphany := ImageEntry(
    "https://images.unsplash.com/photo-1510255370214-7292723c0422?q=80&w=1000&auto=format&fit=crop",
    "የጥምቀት በዓል", "Epiphany",
    "የጥምቀት ክብረ በዓል", "Vibrant celebration of Timkat")

  const OriginalChapel := ImageEntry(
    "https://images.unsplash.com/photo-1544923246-77307dd654ca?q=80&w=1000&auto=format&fit=crop",
    "ታሪካዊው ህንፃ", "Original Chapel",
    "የቀድሞው ባለቀለም ቤተክርስቲያን", "The original colorful building that served the parish")

  /**
   * The four albums of the Gallery page, captioned in language lang:
   * every album has at least one image, so a card can always be created
   * for it, and the album ids, which key the cards, are pairwise distinct.
   */
  function Albums(lang: Language): (r: seq<Album>)
    ensures |r| == 4
    ensures forall k :: 0 <= k < |r| ==> |r[k].images| >= 1
    ensures forall j, k :: 0 <= j < k < |r| ==> r[j].id != r[k].id
  {
    [
      Album("architecture", "Architecture", "ህንፃ ዲዛይን",
        [Localize(ChurchRender, lang), Localize(SidePerspective, lang)]),
      Album("icons", "Sacred Icons", "ቅዱሳን አዶዎች",
        [Localize(AnnunciationIcon, lang), Localize(SanctuaryMurals, lang)]),
      Album("community", "Community", "የማህበረሰብ ሕይወት",
        [Localize(Congregation, lang), Localize(Epiphany, lang)]),
      Album("history", "Historical", "ታሪካዊ ምስሎች",
        [Localize(OriginalChapel, lang)])
    ]
  }

  /** The number of images of each album, in table order. */
  function ImageCounts(albums: seq<Album>): (r: seq<nat>)
    ensures |r| == |albums|
    ensures forall k :: 0 <= k < |albums| ==> r[k] == |albums[k].images|
  {
    if albums == [] then [] else [|albums[0].images|] + ImageCounts(albums[1..])
  }

  /** The image counts are 2, 2, 2 and 1, whatever the language. */
  lemma AlbumImageCounts(lang: Language)
    ensures ImageCounts(Albums(lang)) == [2, 2, 2, 1]
  {
  }

  /**
   * Only the captions depend on the language: keys, titles, image sources
   * and image counts are the same in both languages, album by album.
   */
  lemma AlbumsShapeIndependentOfLanguage(k: nat, j: nat)
    requires k < |Albums(Am)|
    ensures k < |Albums(En)|
    ensures Albums(Am)[k].id == Albums(En)[k].id
    ensures Albums(Am)[k].title == Albums(En)[k].title
    ensures Albums(Am)[k].titleAm == Albums(En)[k].titleAm
    ensures |Albums(Am)[k].images| == |Albums(En)[k].images|
    ensures j < |Albums(Am)[k].images| ==> Albums(Am)[k].images[j].src == Albums(En)[k].images[j].src
  {
  }

  /** The "history" album has one image, so its card shows no controls and no dots. */
  lemma HistoryCardHasNoControls(lang: Language)
    ensures Albums(lang)[3].id == "history"
    ensures !Render(Albums(lang)[3], lang, 0).showControls
    ensures Render(Albums(lang)[3], lang, 0).dots == []
  {
  }

  /**
   * A language switch re-renders every card of the Gallery with the album
   * at the same position in the table for the new language; that album
   * has the same key and the same image count, so each card's index stays
   * valid and is kept.
   */
  method SwitchCardLanguage(c: Carousel, k: nat, lang': Language)
    requires c.Valid() && k < |Albums(c.lang)| && c.album == Albums(c.lang)[k]
    modifies c
    ensures c.Valid() && c.album == Albums(lang')[k] && c.lang == lang'
    ensures c.currentIndex == old(c.currentIndex)
  {
    AlbumsShapeIndependentOfLanguage(k, 0);
    c.Rerender(Albums(lang')[k], lang');
  }
}
