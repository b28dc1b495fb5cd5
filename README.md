# Wolo Sefer church website: carousel and shell state

The site is a static, bilingual (Amharic/English) React application. Almost
all of it renders strings from a translation table; two small pieces hold
state. This project models those two pieces and proves their behaviour.

- **The Gallery carousel** (`pages/Gallery.tsx`). Each album card keeps a
  `currentIndex` into its non-empty image list. The next and previous buttons
  move it with unconditional wrap-around. The shown image, the "k / n"
  counter, the highlighted image and dot, and whether the buttons and dots
  exist all follow from that index and the image count. The album table is a
  single expression of the language: only captions change with it.
- **The shell** (`App.tsx`). The application holds a two-valued language that
  starts as Amharic. The header holds a mobile-menu flag that starts closed:
  the burger button flips it, and a mobile link or the mobile language button
  closes it. There are five links. A desktop link is highlighted exactly when
  the current location equals its route; the mobile-menu links are never
  highlighted (App.tsx:85).

Files:

- `types.dfy`, module `Types`: the `Language` type (`'am' | 'en'`).
- `marks.dfy`, module `Marks`: rows of highlight flags, with `CountTrue` and
  the lemma that a row marked only at one index has exactly one mark on.
- `carousel.dfy`, module `Gallery`: the index arithmetic, what a card renders
  (`Render`), and the `Carousel` class holding a card's props and index.
- `albums.dfy`, module `GalleryAlbums`: the four-album table and what a
  language switch does to the cards built from it.
- `shell.dfy`, module `Shell`: `Toggle`, the language button label, the
  navigation links and their highlighting, and the `Shell` class holding
  `lang`, `isOpen` and the router location.

The script computes `(i + 1) % n` and `(i - 1 + n) % n`. JavaScript's `%`
truncates toward zero and Dafny's is Euclidean, but here both operands are
never negative, so the two agree. The model writes the same expressions.

Notes on the code:

- The page has no load-time check that caption and image lists have the
  same length. Each image object carries its own `label` and `desc`
  (pages/Gallery.tsx:129-133), so the two cannot differ.
- App.tsx has no dark-mode toggle and no use of local storage.
- The translation table (`translations`) is not part of this model. The
  navigation labels of the current language are therefore a parameter
  (`NavLabels`, the `nav` part of `TranslationContent` in `types.ts`); the
  label texts themselves are not modelled.
- The image field `label` is called `caption` in the model, because
  `label` is a reserved word in Dafny.

## Model

| member | source | states |
|---|---|---|
| `Gallery.NextIndex` | pages/Gallery.tsx:23-26 | For n >= 1 the result is in [0, n); from an index i < n it is i + 1, or 0 when i = n - 1 |
| `Gallery.PrevIndex` | pages/Gallery.tsx:28-31 | For n >= 1 the result is in [0, n); from an index i < n it is i - 1, or n - 1 when i = 0 |
| `Gallery.PrevAfterNext` | pages/Gallery.tsx:25-30 | "Previous" right after "next" returns to the original index |
| `Gallery.NextAfterPrev` | pages/Gallery.tsx:25-30 | "Next" right after "previous" returns to the original index |
| `Gallery.SingleImageIsFixed` | pages/Gallery.tsx:25-30 | On a one-image album both buttons leave the index at 0 |
| `Gallery.NextTimesRotates` | pages/Gallery.tsx:25 | k presses of "next" from i reach (i + k) mod n |
| `Gallery.PrevTimesRotates` | pages/Gallery.tsx:30 | k presses of "previous" from i reach (i - k) mod n |
| `Gallery.FullCycle` | pages/Gallery.tsx:25-30 | n presses of "next", or n of "previous", on an album of n images return to the starting index |
| `Gallery.NextThenPrevTimes` | pages/Gallery.tsx:25-30 | k presses of "next" followed by k of "previous" return to the start |
| `Gallery.Render` | pages/Gallery.tsx:33-112 | For a valid index: the title is `titleAm` in Amharic and `title` otherwise; exactly one image is active, the one at the index; buttons exist iff there is more than one image; dots then exist, one per image, with exactly one active at the index, and otherwise there are none; the counter is index + 1, between 1 and n, and the total is n; caption and description are those of `images[index]` |
| `Gallery.Carousel.constructor` | pages/Gallery.tsx:20-21 | A new card starts at index 0, which is valid because the album is not empty |
| `Gallery.Carousel.NextSlide` | pages/Gallery.tsx:23-26 | The index becomes `NextIndex` of the old one and stays valid; album and language are unchanged |
| `Gallery.Carousel.PrevSlide` | pages/Gallery.tsx:28-31 | The index becomes `PrevIndex` of the old one and stays valid; album and language are unchanged |
| `Gallery.Carousel.Rerender` | pages/Gallery.tsx:210-211 | New props under the same key (album id) and image count keep the index, which stays valid |
| `GalleryAlbums.Localize` | pages/Gallery.tsx:129-133 | An image keeps its source in both languages; its caption and description are the Amharic ones in Amharic and the English ones otherwise |
| `GalleryAlbums.Albums` | pages/Gallery.tsx:123-187 | The table has four albums, each with at least one image, and pairwise distinct ids that can serve as card keys |
| `GalleryAlbums.AlbumImageCounts` | pages/Gallery.tsx:123-187 | The image counts are 2, 2, 2, 1 in either language |
| `GalleryAlbums.AlbumsShapeIndependentOfLanguage` | pages/Gallery.tsx:123-187 | Album by album, ids, titles, image counts and image sources are the same in both languages |
| `GalleryAlbums.HistoryCardHasNoControls` | pages/Gallery.tsx:175-186 | The "history" album has one image, so its card renders no buttons and no dots |
| `GalleryAlbums.SwitchCardLanguage` | pages/Gallery.tsx:210-211 | After a language switch, a card shows the album at the same table position in the new language and keeps its valid index |
| `Shell.Toggle` | App.tsx:18-20 | Switching always gives the other language, so 'am' becomes 'en' and 'en' becomes 'am' |
| `Shell.ToggleTwice` | App.tsx:18-20 | Switching twice restores the original language |
| `Shell.LanguageButtonLabel` | App.tsx:62 | The button names the language a click switches to, and never the current one ("English" in Amharic, "አማርኛ" in English); line 98 uses the same rule |
| `Shell.NavItems` | App.tsx:22-28 | Five links with routes `/`, `/about`, `/services`, `/gallery`, `/contact` in this order, pairwise distinct, labelled by the home, about, services, gallery and contact labels |
| `Shell.Highlighted` | App.tsx:46-52 | A desktop link is highlighted iff its route equals the current location |
| `Shell.HighlightIsUnique` | App.tsx:46-52 | With distinct routes, one link is highlighted when some route equals the location, and none otherwise |
| `Shell.HeaderHighlight` | App.tsx:22-52 | In the header at most one link is highlighted; exactly one, the link at that route, when the location is one of the five routes |
| `Shell.Shell.constructor` | App.tsx:141 | The application starts in 'am' with the mobile menu closed (the menu flag starts false at line 14) |
| `Shell.Shell.ToggleLang` | App.tsx:57-63 | The desktop language button switches the language and changes nothing else |
| `Shell.Shell.ToggleMenu` | App.tsx:67-68 | The burger button flips the menu flag and changes nothing else |
| `Shell.Shell.FollowLink` | App.tsx:46-49 | A desktop link moves the location to its route and keeps language and menu flag |
| `Shell.Shell.ChooseMobileLink` | App.tsx:80-84 | A mobile-menu link moves the location to its route, closes the menu and keeps the language |
| `Shell.Shell.MobileToggleLang` | App.tsx:90-94 | The mobile language button switches the language and closes the menu |
| `Shell.ChooseAndHighlight` | App.tsx:46-52 | After choosing the desktop link at route k, exactly that link is highlighted; the language and the menu flag are unchanged |

## Left out

- All markup, styling, icons, animations and image loading: presentation only.
- React's hook scheduling, re-rendering and reconciliation: state is modelled as plain fields that change immediately on each click.
- `HashRouter`, `Routes` and `useLocation`: the location is a plain string field that a link click sets to the link's route.
- The translation table: it is not part of this model, so the navigation labels are a parameter and the page texts are not modelled.
- Highlighting of the mobile-menu links: they have a fixed style (App.tsx:85) and are never highlighted, so only the desktop rule is modelled.
- The brand name at App.tsx:40, the Gallery heading texts and the footer: fixed strings with no logic. The footer year comes from the clock.
- pages/Contact.tsx, pages/Home.tsx, pages/About.tsx, pages/Services.tsx: rendering, a form that only calls `alert()`, and a foreign URL encoder.
- The empty album: the source would throw a TypeError on the first render, because `album.images[0]` is undefined and `currentImage.label` is read (pages/Gallery.tsx:33, 108). Its buttons would not exist, since they need more than one image (line 57). `NextIndex`, `PrevIndex` and the `Carousel` constructor require at least one image, and every album of the table has one.
- `Gallery.Carousel.Rerender`: requires the same id and image count. React keeps a card's index across renders with the same key; if the image count shrank, the source would read an undefined image. The table never does this (`GalleryAlbums.AlbumsShapeIndependentOfLanguage`).
- `Shell.Shell.ChooseMobileLink` and `Shell.Shell.MobileToggleLang`: require the menu to be open, because those buttons exist only while it is (App.tsx:77).
- JavaScript numbers are floating point; the indices stay tiny, so they are modelled as unbounded naturals.
