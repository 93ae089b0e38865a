/**
 * MusicInfoService: working out what is playing from window titles and
 * UI texts, and telling the player when it changes.  The Win32 window
 * enumeration, the process list and the UI Automation tree walks are
 * replaced by what they deliver (processes, top-level windows in
 * enumeration order, element texts); each selection and heuristic applied
 * to them is modelled as written.
 *
 * Several literals of the service are non-Latin words whose letters are
 * stored as U+FFFD replacement characters in the source text; they are
 * kept here as exactly those characters.
 */
module NowPlaying {
  import opened Options
  import opened Strings

  /** What one detector reports (all fields default to ""). */
  datatype MusicInfo = MusicInfo(title: string, artist: string, album: string, source: string, coverUrl: string)

  const Nothing := MusicInfo("", "", "", "", "")

  const Dash := " - "
  /** The alternative separator (a dash that is U+FFFD in the source). */
  const AltDash := " \U{FFFD} "
  /** The Russian word for "music" (six replacement characters). */
  const MusicWord := "\U{FFFD}\U{FFFD}\U{FFFD}\U{FFFD}\U{FFFD}\U{FFFD}"
  /** The Russian site name "Yandex.Music". */
  const YandexWord := "\U{FFFD}\U{FFFD}\U{FFFD}\U{FFFD}\U{FFFD}\U{FFFD}." + MusicWord
  const SuffixRu := AltDash + YandexWord
  const SuffixEn := AltDash + "Yandex.Music"
  const YandexSource := "Yandex Music"
  const Players := ["Apple Music", "Deezer", "VK " + MusicWord, "YouTube Music"]

  // ---------------------------------------------------------------------
  // Cover URLs

  /** A string taken for a cover URL: not blank, and starting with "http" or
      mentioning ".jpg" or ".png". */
  predicate LooksLikeCoverUrl(s: string) {
    !IsBlank(s) && (StartsWith(s, "http") || Contains(s, ".jpg") || Contains(s, ".png"))
  }

  /** A UI Automation element: its name and its help text ("" when absent). */
  datatype Element = Element(name: string, helpText: string)

  predicate HasCover(e: Element) {
    LooksLikeCoverUrl(Trim(e.name)) || LooksLikeCoverUrl(e.helpText)
  }

  /** The element's URL: its trimmed name if that qualifies, else its help text. */
  function CoverOf(e: Element): string {
    if LooksLikeCoverUrl(Trim(e.name)) then Trim(e.name) else e.helpText
  }

  /** The URL of the first element that has one. */
  function FirstCover(els: seq<Element>): (r: Option<string>)
    ensures r.Some? ==> LooksLikeCoverUrl(r.value)
  {
    if els == [] then None
    else if HasCover(els[0]) then Some(CoverOf(els[0]))
    else FirstCover(els[1..])
  }

  /** FirstCover finds a URL exactly when some element has one, and then it
      is the URL of the first such element. */
  lemma {:induction false} FirstCoverSpec(els: seq<Element>)
    ensures FirstCover(els).None? <==> forall i :: 0 <= i < |els| ==> !HasCover(els[i])
    ensures FirstCover(els).Some? ==>
      exists i :: 0 <= i < |els| && HasCover(els[i]) &&
        FirstCover(els).value == CoverOf(els[i]) && forall j :: 0 <= j < i ==> !HasCover(els[j])
  {
    if els != [] && !HasCover(els[0]) {
      FirstCoverSpec(els[1..]);
      if FirstCover(els[1..]).Some? {
        var i :| 0 <= i < |els[1..]| && HasCover(els[1..][i]) &&
          FirstCover(els[1..]).value == CoverOf(els[1..][i]) && forall j :: 0 <= j < i ==> !HasCover(els[1..][j]);
        assert HasCover(els[i + 1]);
        assert forall j :: 0 <= j < i + 1 ==> !HasCover(els[j]) by {
          forall j | 1 <= j < i + 1 ensures !HasCover(els[j]) {
            assert els[j] == els[1..][j - 1];
          }
        }
      }
    }
  }

  /** Searching a concatenation searches the first part, then the second. */
  lemma {:induction false} FirstCoverAppend(a: seq<Element>, b: seq<Element>)
    ensures FirstCover(a + b) == if FirstCover(a).Some? then FirstCover(a) else FirstCover(b)
    decreases |a|
  {
    if a == [] {
      assert a + b == b;
    } else {
      assert (a + b)[0] == a[0];
      assert (a + b)[1..] == a[1..] + b;
      FirstCoverAppend(a[1..], b);
    }
  }

  /** One loop of TryExtractCoverUrlFromAutomation over a list of elements. */
  method ScanElements(els: seq<Element>) returns (r: Option<string>)
    ensures r == FirstCover(els)
  {
    var i := 0;
    while i < |els|
      invariant 0 <= i <= |els|
      invariant FirstCover(els[i..]) == FirstCover(els)
    {
      var el := els[i];
      assert els[i..][0] == el && els[i..][1..] == els[i + 1..];
      var name := Trim(el.name);
      if LooksLikeCoverUrl(name) {
        return Some(name);
      }
      if LooksLikeCoverUrl(el.helpText) {
        return Some(el.helpText);
      }
      i := i + 1;
    }
    return None;
  }

  /** TryExtractCoverUrlFromAutomation: the image elements are searched
      first, then all on-screen elements. */
  method TryExtractCoverUrl(images: seq<Element>, all: seq<Element>) returns (r: Option<string>)
    ensures r == FirstCover(images + all)
  {
    FirstCoverAppend(images, all);
    r := ScanElements(images);
    if r.None? {
      r := ScanElements(all);
    }
  }

  /** A cover found by UI Automation, kept only when not blank. */
  function CoverOr(cover: Option<string>): string {
    if cover.Some? && !IsBlank(cover.value) then cover.value else ""
  }

  /** The iTunes artwork URL rewritten from the 100x100 to the 600x600 form. */
  function LargeArtwork(url: string): string {
    Replace(Replace(url, "100x100bb.jpg", "600x600bb.jpg"), "100x100-75", "600x600-75")
  }

  /** A URL with neither 100x100 marker is returned as it is. */
  lemma LargeArtworkKeeps(url: string)
    requires !Contains(url, "100x100bb.jpg") && !Contains(url, "100x100-75")
    ensures LargeArtwork(url) == url
  {
  }

  /** The 100x100 "bb.jpg" name, between two texts free of both markers,
      becomes the 600x600 name and nothing else changes. */
  lemma LargeArtworkRewritesJpg(p: string, q: string)
    requires !Contains(p, "100x100bb.jpg") && !Contains(q, "100x100bb.jpg")
    requires !Contains(p, "100x100-75") && !Contains(q, "100x100-75")
    ensures LargeArtwork(p + "100x100bb.jpg" + q) == p + "600x600bb.jpg" + q
  {
    ReplaceSingle(p, "100x100bb.jpg", q, "600x600bb.jpg");
    NotContainsAround(p, "600x600bb.jpg", q, "100x100-75");
  }

  /** The 100x100 "-75" form, between two texts free of both markers,
      becomes the 600x600 form and nothing else changes. */
  lemma LargeArtworkRewrites75(p: string, q: string)
    requires !Contains(p, "100x100bb.jpg") && !Contains(q, "100x100bb.jpg")
    requires !Contains(p, "100x100-75") && !Contains(q, "100x100-75")
    ensures LargeArtwork(p + "100x100-75" + q) == p + "600x600-75" + q
  {
    NotContainsAround(p, "100x100-75", q, "100x100bb.jpg");
    ReplaceSingle(p, "100x100-75", q, "600x600-75");
  }

  // ---------------------------------------------------------------------
  // Spotify

  /** The (artist, title) split of a cleaned Spotify title. */
  function SpotifyNames(clean: string): (string, string) {
    if Contains(clean, Dash) then
      var parts := SplitStr(clean, Dash);
      if |parts| >= 2 then
        if Contains(parts[0], " ") && !Contains(parts[1], " ") then (parts[0], parts[1])
        else (parts[1], parts[0])
      else ("", "")
    else ("", clean)
  }

  /** With a dash, artist and title are the first two dash-free pieces of the
      cleaned title, in either order, and the artist is the first piece
      exactly when that one has a space and the second has none (or both
      pieces are the same); without one, the whole cleaned title is the
      title. */
  lemma SpotifyNamesSpec(clean: string)
    ensures var (artist, title) := SpotifyNames(clean);
      (!Contains(clean, Dash) ==> artist == "" && title == clean) &&
      (Contains(clean, Dash) ==>
         var parts := SplitStr(clean, Dash);
         |parts| >= 2 && Join(parts, Dash) == clean &&
         multiset{artist, title} == multiset{parts[0], parts[1]} &&
         !Contains(artist, Dash) && !Contains(title, Dash) &&
         (parts[0] != parts[1] ==> (artist == parts[0] <==> Contains(parts[0], " ") && !Contains(parts[1], " "))))
  {
    if Contains(clean, Dash) {
      SplitStrContains(clean, Dash);
      SplitStrJoin(clean, Dash);
      SplitStrNoSep(clean, Dash);
    }
  }

  /** GetSpotifyInfo, given the text of the Spotify window (None when no
      such window exists) and the cover URL UI Automation finds. */
  function SpotifyInfo(window: Option<string>, cover: Option<string>): (info: MusicInfo)
    ensures info.album == ""
  {
    match window
    case None => Nothing
    case Some(title) =>
      if Contains(title, "Spotify") && !Contains(title, "Spotify Premium") then
        var (artist, name) := SpotifyNames(Trim(Replace(title, " - Spotify", "")));
        MusicInfo(name, artist, "", "Spotify", CoverOr(cover))
      else Nothing
  }

  /** Spotify reports something exactly for a window whose title mentions
      Spotify but not "Spotify Premium"; a blank cover is never kept. */
  lemma SpotifyInfoSpec(window: Option<string>, cover: Option<string>)
    ensures var info := SpotifyInfo(window, cover);
      (info.source == "Spotify" <==>
         window.Some? && Contains(window.value, "Spotify") && !Contains(window.value, "Spotify Premium")) &&
      (info.source != "Spotify" ==> info == Nothing) &&
      (info.coverUrl != "" ==> cover == Some(info.coverUrl) && !IsBlank(info.coverUrl))
  {
  }

  // ---------------------------------------------------------------------
  // Yandex Music: texts of the app window

  /** A UI text is kept when, trimmed, it is not blank, does not contain
      the chrome marker, and has at most 200 characters. */
  predicate Keep(name: string) {
    !IsBlank(name) && !Contains(name, MusicWord) && |name| <= 200
  }

  /** The trimmed texts that are kept, in order. */
  function Kept(names: seq<string>): (list: seq<string>)
    ensures |list| <= |names|
  {
    if names == [] then []
    else
      var n := Trim(names[|names| - 1]);
      Kept(names[..|names| - 1]) + (if Keep(n) then [n] else [])
  }

  /** `t` is one of the texts, trimmed. */
  predicate TrimmedFrom(names: seq<string>, t: string) {
    exists i :: 0 <= i < |names| && t == Trim(names[i])
  }

  /** Every kept text passes the filter and is a trimmed text of the
      window. */
  lemma {:induction false} KeptSpec(names: seq<string>)
    ensures forall k :: 0 <= k < |Kept(names)| ==> Keep(Kept(names)[k]) && Trim(Kept(names)[k]) == Kept(names)[k]
    ensures forall k :: 0 <= k < |Kept(names)| ==> TrimmedFrom(names, Kept(names)[k])
  {
    if names != [] {
      var init := names[..|names| - 1];
      KeptSpec(init);
      var n := Trim(names[|names| - 1]);
      TrimEnds(names[|names| - 1]);
      TrimOfTrimmed(n);
      var ext := if Keep(n) then [n] else [];
      assert Kept(names) == Kept(init) + ext;
      forall k | 0 <= k < |Kept(names)|
        ensures Keep(Kept(names)[k]) && Trim(Kept(names)[k]) == Kept(names)[k]
        ensures TrimmedFrom(names, Kept(names)[k])
      {
        if k < |Kept(init)| {
          assert Kept(names)[k] == Kept(init)[k];
          var i :| 0 <= i < |init| && Kept(init)[k] == Trim(init[i]);
          assert init[i] == names[i];
        } else {
          assert Kept(names)[k] == Trim(names[|names| - 1]);
        }
      }
    }
  }

  /** Trimming a string that starts and ends with non-white characters
      changes nothing. */
  lemma TrimOfTrimmed(s: string)
    requires s == [] || (!IsWhite(s[0]) && !IsWhite(s[|s| - 1]))
    ensures Trim(s) == s
  {
    if s != [] {
      assert TrimStart(s) == s;
      assert TrimEnd(s) == s;
    }
  }

  /** Filtering a concatenation filters each part. */
  lemma {:induction false} KeptAppend(a: seq<string>, b: seq<string>)
    ensures Kept(a + b) == Kept(a) + Kept(b)
    decreases |b|
  {
    if b == [] {
      assert a + b == a;
    } else {
      var b' := b[..|b| - 1];
      KeptAppend(a, b');
      assert (a + b)[..|a + b| - 1] == a + b';
      AppendAssoc(Kept(a), Kept(b'), Kept(b)[|Kept(b')|..]);
    }
  }

  /** The loop that collects the UI texts. */
  method CollectTexts(names: seq<string>) returns (list: seq<string>)
    ensures list == Kept(names)
  {
    list := [];
    var ti := 0;
    while ti < |names|
      invariant 0 <= ti <= |names|
      invariant list == Kept(names[..ti])
    {
      assert names[..ti + 1][..ti] == names[..ti];
      var name := Trim(names[ti]);
      if !IsBlank(name) && !Contains(name, MusicWord) && |name| <= 200 {
        list := list + [name];
      }
      ti := ti + 1;
    }
    assert names[..ti] == names;
  }

  predicate PairAt(list: seq<string>, i: int)
    requires 0 <= i && i + 1 < |list|
  {
    |list[i]| >= 2 && |list[i + 1]| >= 2
  }

  /** The first adjacent pair, from position i on, whose texts both have at
      least two characters. */
  function FirstPair(list: seq<string>, i: nat): (r: Option<nat>)
    ensures r.Some? ==> i <= r.value && r.value + 1 < |list|
    decreases |list| - i
  {
    if i + 1 >= |list| then None
    else if PairAt(list, i) then Some(i)
    else FirstPair(list, i + 1)
  }

  /** FirstPair finds a pair and none before it, or there is none. */
  lemma {:induction false} FirstPairSpec(list: seq<string>, i: nat)
    ensures var r := FirstPair(list, i);
      (r.Some? ==> PairAt(list, r.value) && forall j :: i <= j < r.value ==> !PairAt(list, j)) &&
      (r.None? ==> forall j :: i <= j && j + 1 < |list| ==> !PairAt(list, j))
    decreases |list| - i
  {
    if i + 1 < |list| && !PairAt(list, i) {
      FirstPairSpec(list, i + 1);
    }
  }

  /** The scan over adjacent pairs. */
  method FindPair(list: seq<string>) returns (r: Option<nat>)
    ensures r == FirstPair(list, 0)
  {
    var i := 0;
    while i < |list| - 1
      invariant 0 <= i
      invariant FirstPair(list, i) == FirstPair(list, 0)
    {
      if |list[i]| >= 2 && |list[i + 1]| >= 2 {
        return Some(i);
      }
      i := i + 1;
    }
    return None;
  }

  /** The position of the first of the longest texts (OrderByDescending is a
      stable sort, so FirstOrDefault takes the earliest of them). */
  function LongestIndex(list: seq<string>): (p: nat)
    requires |list| > 0
    ensures p < |list|
  {
    if |list| == 1 then 0
    else
      var q := LongestIndex(list[..|list| - 1]);
      if |list[|list| - 1]| > |list[q]| then |list| - 1 else q
  }

  /** No text is longer than the chosen one, and every text before it is
      strictly shorter. */
  lemma {:induction false} LongestIndexSpec(list: seq<string>)
    requires |list| > 0
    ensures var p := LongestIndex(list);
      (forall j :: 0 <= j < |list| ==> |list[j]| <= |list[p]|) &&
      (forall j :: 0 <= j < p ==> |list[j]| < |list[p]|)
  {
    if |list| > 1 {
      var init := list[..|list| - 1];
      LongestIndexSpec(init);
      var q := LongestIndex(init);
      assert list[q] == init[q];
      assert forall j :: 0 <= j < |init| ==> list[j] == init[j];
    }
  }

  /** What the UI texts give: the first qualifying adjacent pair, the longer
      text (the first on a tie) being the title; else the longest text
      with the cover; None when no text is kept. */
  function UiTextInfo(list: seq<string>, cover: Option<string>): Option<MusicInfo> {
    match FirstPair(list, 0)
    case Some(i) =>
      var a, b := list[i], list[i + 1];
      if |a| >= |b| then Some(MusicInfo(a, b, "", YandexSource, ""))
      else Some(MusicInfo(b, a, "", YandexSource, ""))
    case None =>
      if |list| > 0 then Some(MusicInfo(list[LongestIndex(list)], "", "", YandexSource, CoverOr(cover)))
      else None
  }

  /** From a pair, title and artist are two adjacent texts, the title being
      the longer, with no qualifying pair before them; otherwise the title is
      a longest text.  Nothing comes out only when nothing was kept. */
  lemma {:induction false} UiTextInfoSpec(list: seq<string>, cover: Option<string>)
    ensures UiTextInfo(list, cover).None? <==> |list| == 0
    ensures UiTextInfo(list, cover).Some? ==>
      UiTextInfo(list, cover).value.source == YandexSource && UiTextInfo(list, cover).value.title in list
    ensures FirstPair(list, 0).Some? ==>
      var i, info := FirstPair(list, 0).value, UiTextInfo(list, cover).value;
      PairAt(list, i) && (forall j :: 0 <= j < i ==> !PairAt(list, j)) &&
      ((info.title == list[i] && info.artist == list[i + 1]) || (info.title == list[i + 1] && info.artist == list[i])) &&
      |info.title| >= |info.artist|
    ensures FirstPair(list, 0).None? && |list| > 0 ==>
      var info := UiTextInfo(list, cover).value;
      info.artist == "" && forall k :: 0 <= k < |list| ==> |list[k]| <= |info.title|
  {
    FirstPairSpec(list, 0);
    match FirstPair(list, 0)
    case Some(i) =>
    case None =>
      if |list| > 0 {
        LongestIndexSpec(list);
        if |list| >= 2 {
          assert !PairAt(list, 0);
        }
      }
  }

  // ---------------------------------------------------------------------
  // Yandex Music: window titles

  /** The title with the site suffixes removed, then trimmed. */
  function CleanYandexTitle(title: string): string {
    Trim(Replace(Replace(title, SuffixRu, ""), SuffixEn, ""))
  }

  /** " - " when the text has it, else the alternative dash when it has
      that, else " - ". */
  function YandexSep(clean: string): string {
    if Contains(clean, Dash) then Dash else if Contains(clean, AltDash) then AltDash else Dash
  }

  /** The window-title parse of the Yandex detector. */
  function TitleInfo(title: string): (info: MusicInfo)
    ensures info.source == YandexSource
  {
    var clean := CleanYandexTitle(title);
    var sep := YandexSep(clean);
    if Contains(clean, sep) then
      var parts := SplitStr(clean, sep);
      if |parts| >= 2 then MusicInfo(Trim(parts[1]), Trim(parts[0]), "", YandexSource, "")
      else MusicInfo(clean, "", "", YandexSource, "")
    else MusicInfo(clean, "", "", YandexSource, "")
  }

  /** With a separator, the artist and title are the first two pieces of
      the cleaned title, trimmed, and " - " is preferred over the
      alternative dash; with none, the title is the cleaned title. */
  lemma TitleInfoSpec(title: string)
    ensures var clean, info := CleanYandexTitle(title), TitleInfo(title);
      (Contains(clean, Dash) ==>
         var parts := SplitStr(clean, Dash);
         |parts| >= 2 && info.artist == Trim(parts[0]) && info.title == Trim(parts[1]) && !Contains(parts[0], Dash)) &&
      (!Contains(clean, Dash) && Contains(clean, AltDash) ==>
         var parts := SplitStr(clean, AltDash);
         |parts| >= 2 && info.artist == Trim(parts[0]) && info.title == Trim(parts[1]) && !Contains(parts[0], AltDash)) &&
      (!Contains(clean, Dash) && !Contains(clean, AltDash) ==> info.artist == "" && info.title == clean)
  {
    var clean := CleanYandexTitle(title);
    if Contains(clean, Dash) {
      SplitStrContains(clean, Dash);
      SplitStrNoSep(clean, Dash);
    } else if Contains(clean, AltDash) {
      SplitStrContains(clean, AltDash);
      SplitStrNoSep(clean, AltDash);
    }
  }

  /** A browser title that names Yandex Music. */
  predicate MentionsYandex(title: string) {
    Contains(title, YandexWord) || Contains(title, "Yandex.Music") || Contains(title, "music.yandex.ru")
    || Contains(title, MusicWord)
  }

  /** The parse of a browser title that has a dash but names no site. */
  function DashTitleInfo(title: string): (info: MusicInfo)
    ensures info.source == YandexSource
  {
    var clean := CleanYandexTitle(title);
    var sep := if Contains(clean, Dash) then Dash else AltDash;
    var parts := SplitStr(clean, sep);
    if |parts| >= 2 then MusicInfo(Trim(parts[1]), Trim(parts[0]), "", YandexSource, "")
    else MusicInfo(clean, "", "", YandexSource, "")
  }

  /** A browser title the fallback takes: not blank, and naming Yandex
      Music or holding a dash. */
  predicate Decides(title: string) {
    !IsBlank(title) && (MentionsYandex(title) || Contains(title, Dash) || Contains(title, AltDash))
  }

  /** The browser fallback: the first title that decides is parsed (as a
      Yandex title when it names the site); nothing if none decides. */
  function BrowserInfo(titles: seq<string>): (info: MusicInfo)
    ensures info == Nothing || info.source == YandexSource
  {
    if titles == [] then Nothing
    else if Decides(titles[0]) then
      if MentionsYandex(titles[0]) then TitleInfo(titles[0]) else DashTitleInfo(titles[0])
    else BrowserInfo(titles[1..])
  }

  /** The browser fallback reports something exactly when some title
      decides. */
  lemma {:induction false} BrowserInfoSpec(titles: seq<string>)
    ensures BrowserInfo(titles) != Nothing <==> exists i :: 0 <= i < |titles| && Decides(titles[i])
  {
    if titles != [] && !Decides(titles[0]) {
      var rest := titles[1..];
      BrowserInfoSpec(rest);
      if exists i :: 0 <= i < |titles| && Decides(titles[i]) {
        var i :| 0 <= i < |titles| && Decides(titles[i]);
        assert rest[i - 1] == titles[i];
      }
      if exists i :: 0 <= i < |rest| && Decides(rest[i]) {
        var i :| 0 <= i < |rest| && Decides(rest[i]);
        assert rest[i] == titles[i + 1];
      }
    }
  }

  /** The window of a Yandex Music process: the texts UI Automation reads
      (None when it fails), the window title, and the cover it finds. */
  datatype AppWindow = AppWindow(texts: Option<seq<string>>, title: string, cover: Option<string>)

  /** A running process: its id, its name and the title of its main
      window. */
  datatype Proc = Proc(id: nat, name: string, mainTitle: string)

  /** A top-level window, in the order EnumWindows reports them: whether it
      is visible, the id of the process that owns it, and what can be read
      from it (its title is `app.title`). */
  datatype TopWindow = TopWindow(visible: bool, pid: nat, app: AppWindow)

  /** A process name that looks like the Yandex Music app. */
  predicate IsYandexApp(name: string) {
    var n := ToLower(name);
    Contains(n, "yandex") || Contains(n, "yamusic") || Contains(n, "yandexmusic") || Contains(n, "ya.music")
  }

  /** A process name that looks like a browser. */
  predicate IsBrowser(name: string) {
    var n := ToLower(name);
    Contains(n, "yandex") || Contains(n, "browser") || Contains(n, "chrome") || Contains(n, "msedge")
    || Contains(n, "opera") || Contains(n, "firefox")
  }

  /** A visible window of process `pid` whose trimmed title is not blank. */
  predicate OwnedTitled(w: TopWindow, pid: nat) {
    w.visible && w.pid == pid && !IsBlank(Trim(w.app.title))
  }

  /** The first window, from position k on, that process `pid` owns and
      that has a title. */
  function FirstOwned(ws: seq<TopWindow>, pid: nat, k: nat): (r: Option<nat>)
    ensures r.Some? ==> k <= r.value < |ws| && OwnedTitled(ws[r.value], pid)
    decreases |ws| - k
  {
    if k >= |ws| then None
    else if OwnedTitled(ws[k], pid) then Some(k)
    else FirstOwned(ws, pid, k + 1)
  }

  /** No window before the chosen one qualifies; None means none does. */
  lemma {:induction false} FirstOwnedSpec(ws: seq<TopWindow>, pid: nat, k: nat)
    ensures var r := FirstOwned(ws, pid, k);
      (r.Some? ==> forall j :: k <= j < r.value ==> !OwnedTitled(ws[j], pid)) &&
      (r.None? ==> forall j :: k <= j < |ws| ==> !OwnedTitled(ws[j], pid))
    decreases |ws| - k
  {
    if k < |ws| && !OwnedTitled(ws[k], pid) {
      FirstOwnedSpec(ws, pid, k + 1);
    }
  }

  /** A Yandex Music process that owns a titled window. */
  predicate Qualifies(p: Proc, ws: seq<TopWindow>) {
    IsYandexApp(p.name) && FirstOwned(ws, p.id, 0).Some?
  }

  /** The first qualifying process, from position k on. */
  function FirstApp(procs: seq<Proc>, ws: seq<TopWindow>, k: nat): (r: Option<nat>)
    ensures r.Some? ==> k <= r.value < |procs| && Qualifies(procs[r.value], ws)
    decreases |procs| - k
  {
    if k >= |procs| then None
    else if Qualifies(procs[k], ws) then Some(k)
    else FirstApp(procs, ws, k + 1)
  }

  /** No process before the chosen one qualifies; None means none does. */
  lemma {:induction false} FirstAppSpec(procs: seq<Proc>, ws: seq<TopWindow>, k: nat)
    ensures var r := FirstApp(procs, ws, k);
      (r.Some? ==> forall j :: k <= j < r.value ==> !Qualifies(procs[j], ws)) &&
      (r.None? ==> forall j :: k <= j < |procs| ==> !Qualifies(procs[j], ws))
    decreases |procs| - k
  {
    if k < |procs| && !Qualifies(procs[k], ws) {
      FirstAppSpec(procs, ws, k + 1);
    }
  }

  /** The app window: the first titled window of the first qualifying
      process. */
  function AppOf(procs: seq<Proc>, ws: seq<TopWindow>): (app: Option<AppWindow>)
    ensures app.Some? ==>
      exists i :: 0 <= i < |ws| && ws[i].app == app.value && ws[i].visible && !IsBlank(Trim(ws[i].app.title))
  {
    match FirstApp(procs, ws, 0)
    case None => None
    case Some(i) => Some(ws[FirstOwned(ws, procs[i].id, 0).value].app)
  }

  /** Some Yandex Music process owns a titled window. */
  predicate HasApp(procs: seq<Proc>, ws: seq<TopWindow>) {
    exists i, j :: 0 <= i < |procs| && 0 <= j < |ws| && IsYandexApp(procs[i].name) && OwnedTitled(ws[j], procs[i].id)
  }

  /** There is an app window exactly when some Yandex Music process owns a
      titled window. */
  lemma AppOfSpec(procs: seq<Proc>, ws: seq<TopWindow>)
    ensures AppOf(procs, ws).Some? <==> HasApp(procs, ws)
  {
    FirstAppSpec(procs, ws, 0);
    if HasApp(procs, ws) {
      var i, j :| 0 <= i < |procs| && 0 <= j < |ws| && IsYandexApp(procs[i].name) && OwnedTitled(ws[j], procs[i].id);
      FirstOwnedSpec(ws, procs[i].id, 0);
      assert Qualifies(procs[i], ws);
    }
    if AppOf(procs, ws).Some? {
      var i := FirstApp(procs, ws, 0).value;
      var j := FirstOwned(ws, procs[i].id, 0).value;
      assert IsYandexApp(procs[i].name) && OwnedTitled(ws[j], procs[i].id);
    }
  }

  /** A visible window whose title names Yandex Music. */
  predicate Marked(w: TopWindow) {
    w.visible && !IsBlank(w.app.title)
    && (Contains(w.app.title, YandexWord) || Contains(w.app.title, "Yandex.Music")
      || Contains(w.app.title, "music.yandex.ru"))
  }

  /** The first marked window, from position k on. */
  function FirstMarked(ws: seq<TopWindow>, k: nat): (r: Option<nat>)
    ensures r.Some? ==> k <= r.value < |ws| && Marked(ws[r.value])
    decreases |ws| - k
  {
    if k >= |ws| then None
    else if Marked(ws[k]) then Some(k)
    else FirstMarked(ws, k + 1)
  }

  /** No window before the chosen one is marked; None means none is. */
  lemma {:induction false} FirstMarkedSpec(ws: seq<TopWindow>, k: nat)
    ensures var r := FirstMarked(ws, k);
      (r.Some? ==> forall j :: k <= j < r.value ==> !Marked(ws[j])) &&
      (r.None? ==> forall j :: k <= j < |ws| ==> !Marked(ws[j]))
    decreases |ws| - k
  {
    if k < |ws| && !Marked(ws[k]) {
      FirstMarkedSpec(ws, k + 1);
    }
  }

  /** The title of the first marked window, if any. */
  function MarkedTitle(ws: seq<TopWindow>): Option<string> {
    match FirstMarked(ws, 0)
    case None => None
    case Some(i) => Some(ws[i].app.title)
  }

  /** The main-window titles of the browser processes, in process order. */
  function BrowserTitles(procs: seq<Proc>): (titles: seq<string>)
    ensures |titles| <= |procs|
  {
    if procs == [] then []
    else if IsBrowser(procs[0].name) then [procs[0].mainTitle] + BrowserTitles(procs[1..])
    else BrowserTitles(procs[1..])
  }

  /** A title is listed exactly when some browser process has it as its
      main-window title. */
  lemma {:induction false} BrowserTitlesSpec(procs: seq<Proc>, t: string)
    ensures t in BrowserTitles(procs) <==>
      exists i :: 0 <= i < |procs| && IsBrowser(procs[i].name) && procs[i].mainTitle == t
  {
    if procs != [] {
      BrowserTitlesSpec(procs[1..], t);
      if exists i :: 0 <= i < |procs| && IsBrowser(procs[i].name) && procs[i].mainTitle == t {
        var i :| 0 <= i < |procs| && IsBrowser(procs[i].name) && procs[i].mainTitle == t;
        if i > 0 {
          assert procs[1..][i - 1] == procs[i];
        }
      }
      if exists i :: 0 <= i < |procs| - 1 && IsBrowser(procs[1..][i].name) && procs[1..][i].mainTitle == t {
        var i :| 0 <= i < |procs| - 1 && IsBrowser(procs[1..][i].name) && procs[1..][i].mainTitle == t;
        assert procs[1..][i] == procs[i + 1];
      }
    }
  }

  /** GetYandexMusicInfo, given the app window (if any), the marked window
      title (if any) and the browser titles. */
  function YandexInfo(app: Option<AppWindow>, marked: Option<string>, browsers: seq<string>): MusicInfo {
    if app.Some? then
      var w := app.value;
      if w.texts.Some? && UiTextInfo(Kept(w.texts.value), w.cover).Some? then
        UiTextInfo(Kept(w.texts.value), w.cover).value
      else TitleInfo(w.title)
    else if marked.Some? then TitleInfo(marked.value)
    else BrowserInfo(browsers)
  }

  /** The app search: processes in order, and for each Yandex Music process
      the windows in order. */
  method FindApp(procs: seq<Proc>, ws: seq<TopWindow>) returns (app: Option<AppWindow>)
    ensures app == AppOf(procs, ws)
  {
    var k := 0;
    while k < |procs|
      invariant 0 <= k <= |procs|
      invariant FirstApp(procs, ws, 0) == FirstApp(procs, ws, k)
    {
      var p := procs[k];
      if IsYandexApp(p.name) {
        var matched := FindOwned(ws, p.id);
        if matched.Some? {
          return Some(ws[matched.value].app);
        }
      }
      k := k + 1;
    }
    return None;
  }

  /** The EnumWindows callback for one process: the first owned, titled
      window. */
  method FindOwned(ws: seq<TopWindow>, pid: nat) returns (r: Option<nat>)
    ensures r == FirstOwned(ws, pid, 0)
  {
    var j := 0;
    while j < |ws|
      invariant 0 <= j <= |ws|
      invariant FirstOwned(ws, pid, 0) == FirstOwned(ws, pid, j)
    {
      if OwnedTitled(ws[j], pid) {
        return Some(j);
      }
      j := j + 1;
    }
    return None;
  }

  /** The EnumWindows callback of the fallback: the first marked window. */
  method FindMarked(ws: seq<TopWindow>) returns (r: Option<nat>)
    ensures r == FirstMarked(ws, 0)
  {
    var j := 0;
    while j < |ws|
      invariant 0 <= j <= |ws|
      invariant FirstMarked(ws, 0) == FirstMarked(ws, j)
    {
      if Marked(ws[j]) {
        return Some(j);
      }
      j := j + 1;
    }
    return None;
  }

  /** The Yandex detector: the app window, then the marked window, then the
      browser processes. */
  method GetYandexMusicInfo(procs: seq<Proc>, ws: seq<TopWindow>) returns (info: MusicInfo)
    ensures info == YandexInfo(AppOf(procs, ws), MarkedTitle(ws), BrowserTitles(procs))
  {
    var app := FindApp(procs, ws);
    if app.Some? {
      info := AppInfo(app.value);
      return;
    }
    var found := FindMarked(ws);
    if found.Some? {
      return TitleInfo(ws[found.value].app.title);
    }
    return BrowserInfo(BrowserTitles(procs));
  }

  /** The app-window branch: texts collected and scanned in loops, or the
      window title. */
  method AppInfo(w: AppWindow) returns (info: MusicInfo)
    ensures info == YandexInfo(Some(w), None, [])
  {
    if w.texts.Some? {
      var list := CollectTexts(w.texts.value);
      var pair := FindPair(list);
      if pair.Some? {
        var i := pair.value;
        var a, b := list[i], list[i + 1];
        if |a| >= |b| {
          return MusicInfo(a, b, "", YandexSource, "");
        } else {
          return MusicInfo(b, a, "", YandexSource, "");
        }
      }
      if |list| > 0 {
        return MusicInfo(list[LongestIndex(list)], "", "", YandexSource, CoverOr(w.cover));
      }
    }
    return TitleInfo(w.title);
  }

  // ---------------------------------------------------------------------
  // Other players

  /** The first listed player, from position k on, whose name the title
      contains. */
  function FirstPlayer(title: string, k: nat): (r: Option<nat>)
    ensures r.Some? ==> k <= r.value < |Players| && Contains(title, Players[r.value])
    decreases |Players| - k
  {
    if k >= |Players| then None
    else if Contains(title, Players[k]) then Some(k)
    else FirstPlayer(title, k + 1)
  }

  /** No player before the chosen one is named in the title; None means
      none is. */
  lemma {:induction false} FirstPlayerSpec(title: string, k: nat)
    ensures var r := FirstPlayer(title, k);
      (r.Some? ==> forall j :: k <= j < r.value ==> !Contains(title, Players[j])) &&
      (r.None? ==> forall j :: k <= j < |Players| ==> !Contains(title, Players[j]))
    decreases |Players| - k
  {
    if k < |Players| && !Contains(title, Players[k]) {
      FirstPlayerSpec(title, k + 1);
    }
  }

  /** Where the first piece of `s.Split(new[] { a, b })` ends: the first
      position at which either separator occurs. */
  function FirstCut(s: string, a: string, b: string): (p: nat)
    ensures p <= |s|
  {
    match (IndexOf(s, a), IndexOf(s, b))
    case (None, None) => |s|
    case (Some(i), None) => i
    case (None, Some(j)) => j
    case (Some(i), Some(j)) => if i <= j then i else j
  }

  /** The first piece holds neither separator, and the text is cut only
      where one of them occurs. */
  lemma FirstCutSpec(s: string, a: string, b: string)
    requires |a| > 0 && |b| > 0
    ensures var p := FirstCut(s, a, b);
      !Contains(s[..p], a) && !Contains(s[..p], b) &&
      (p < |s| ==> OccursAt(s, a, p) || OccursAt(s, b, p))
  {
    var p := FirstCut(s, a, b);
    IndexOfSpec(s, a);
    IndexOfSpec(s, b);
    NoneBefore(s, a, p);
    NoneBefore(s, b, p);
  }

  /** A prefix that ends no later than the first occurrence of `sub` does
      not contain it. */
  lemma NoneBefore(s: string, sub: string, p: nat)
    requires |sub| > 0 && p <= |s|
    requires IndexOf(s, sub).Some? ==> p <= IndexOf(s, sub).value
    ensures !Contains(s[..p], sub)
  {
    var t := s[..p];
    IndexOfSpec(t, sub);
    IndexOfSpec(s, sub);
    match IndexOf(t, sub)
    case None =>
    case Some(j) =>
      OccursPrefix(s, sub, p, j);
  }

  /** GetOtherMusicInfo for the foreground window's title. */
  function OtherInfo(title: string): (info: MusicInfo)
    ensures info == Nothing || info.source in Players
  {
    match FirstPlayer(title, 0)
    case None => Nothing
    case Some(k) =>
      var player := Players[k];
      var clean := title[..FirstCut(title, Dash + player, AltDash + player)];
      if Contains(clean, Dash) then
        var parts := SplitStr(clean, Dash);
        if |parts| >= 2 then MusicInfo(parts[1], parts[0], "", player, "")
        else MusicInfo("", "", "", player, "")
      else MusicInfo(clean, "", "", player, "")
  }

  /** The source is the first listed player the title names; the player's
      suffix is cut off; a " - " split gives the first two pieces as artist
      and title, otherwise the whole cut title is the title. */
  lemma {:induction false} OtherInfoSpec(title: string)
    ensures var info := OtherInfo(title);
      (info == Nothing <==> forall j :: 0 <= j < |Players| ==> !Contains(title, Players[j])) &&
      (info != Nothing ==>
         exists k :: 0 <= k < |Players| && info.source == Players[k] && Contains(title, Players[k]) &&
           (forall j :: 0 <= j < k ==> !Contains(title, Players[j])) &&
           var clean := title[..FirstCut(title, Dash + Players[k], AltDash + Players[k])];
           !Contains(clean, Dash + Players[k]) && !Contains(clean, AltDash + Players[k]) &&
           (Contains(clean, Dash) ==>
              var parts := SplitStr(clean, Dash);
              |parts| >= 2 && info.artist == parts[0] && info.title == parts[1]) &&
           (!Contains(clean, Dash) ==> info.artist == "" && info.title == clean))
  {
    FirstPlayerSpec(title, 0);
    match FirstPlayer(title, 0)
    case None =>
    case Some(k) =>
      var player := Players[k];
      FirstCutSpec(title, Dash + player, AltDash + player);
      var clean := title[..FirstCut(title, Dash + player, AltDash + player)];
      SplitStrContains(clean, Dash);
  }

  // ---------------------------------------------------------------------
  // Choosing a detector and noticing changes

  /** GetCurrentMusicInfo: Spotify, then Yandex Music, then the other
      players; the first with a title wins. */
  function CurrentMusicInfo(spotify: MusicInfo, yandex: MusicInfo, other: MusicInfo): (r: MusicInfo)
    ensures r.title == "" ==> r == Nothing
  {
    if spotify.title != "" then spotify
    else if yandex.title != "" then yandex
    else if other.title != "" then other
    else Nothing
  }

  /** A later detector is used only when every earlier one found no title;
      a title is reported whenever any detector has one. */
  lemma CurrentMusicInfoSpec(spotify: MusicInfo, yandex: MusicInfo, other: MusicInfo)
    ensures var r, found := CurrentMusicInfo(spotify, yandex, other), [spotify, yandex, other];
      (r.title != "" <==> exists k :: 0 <= k < 3 && found[k].title != "") &&
      (r.title != "" ==> exists k :: 0 <= k < 3 && r == found[k] && forall j :: 0 <= j < k ==> found[j].title == "")
  {
    var found := [spotify, yandex, other];
    if spotify.title != "" {
      assert found[0] == spotify;
    } else if yandex.title != "" {
      assert found[1] == yandex && found[0] == spotify;
    } else if other.title != "" {
      assert found[2] == other && found[1] == yandex && found[0] == spotify;
    }
  }

  /** The key that identifies a track: title and cover. */
  function TrackKey(info: MusicInfo): string {
    info.title + "|" + info.coverUrl
  }

  /** Two tracks whose titles have no '|' have the same key only when they
      have the same title and cover. */
  lemma TrackKeyInjective(p: MusicInfo, q: MusicInfo)
    requires '|' !in p.title && '|' !in q.title
    ensures TrackKey(p) == TrackKey(q) ==> p.title == q.title && p.coverUrl == q.coverUrl
  {
    KeyChars(p);
    KeyChars(q);
    if TrackKey(p) == TrackKey(q) && |p.title| == |q.title| {
      assert p.title == TrackKey(p)[..|p.title|];
      assert q.title == TrackKey(q)[..|q.title|];
      assert p.coverUrl == TrackKey(p)[|p.title| + 1..];
      assert q.coverUrl == TrackKey(q)[|q.title| + 1..];
    }
  }

  /** The key is the title's characters, then '|'. */
  lemma KeyChars(info: MusicInfo)
    ensures TrackKey(info)[|info.title|] == '|'
    ensures forall i :: 0 <= i < |info.title| ==> TrackKey(info)[i] == info.title[i]
  {
  }

  /** The arguments of OnMusicChanged. */
  datatype Change = Change(title: string, artist: string, album: string, coverUrl: string)

  /** A poll announces a change when it found a title or a cover and its key
      differs from the last announced one. */
  predicate Announces(lastKey: string, info: MusicInfo) {
    (info.title != "" || info.coverUrl != "") && TrackKey(info) != lastKey
  }

  /** After a track is announced, polling it again announces nothing; a
      track with another title or cover (titles without '|') is announced. */
  lemma AnnouncesSpec(prev: MusicInfo, info: MusicInfo)
    requires '|' !in prev.title && '|' !in info.title
    ensures !Announces(TrackKey(info), info)
    ensures (info.title != "" || info.coverUrl != "") ==>
      (Announces(TrackKey(prev), info) <==> info.title != prev.title || info.coverUrl != prev.coverUrl)
  {
    TrackKeyInjective(prev, info);
  }

  /** The change detection state of the service. */
  class Watcher {
    var lastTrack: string
    var lastTrackKey: string

    constructor()
      ensures lastTrack == "" && lastTrackKey == ""
    {
      lastTrack := "";
      lastTrackKey := "";
    }

    /** CheckMusic for one poll's result: announces the change (None when
        nothing is announced) and remembers the announced key and title;
        when nothing was found the state is left alone. */
    method CheckMusic(info: MusicInfo) returns (change: Option<Change>)
      modifies this
      ensures change.Some? <==> Announces(old(lastTrackKey), info)
      ensures change.Some? ==>
        change.value == Change(info.title, info.artist, info.album, info.coverUrl) &&
        lastTrackKey == TrackKey(info) && lastTrack == info.title
      ensures change.None? ==> lastTrackKey == old(lastTrackKey) && lastTrack == old(lastTrack)
    {
      change := None;
      if info.title != "" || info.coverUrl != "" {
        var key := info.title + "|" + info.coverUrl;
        if key != lastTrackKey {
          lastTrackKey := key;
          lastTrack := info.title;
          change := Some(Change(info.title, info.artist, info.album, info.coverUrl));
        }
      }
    }
  }
}
