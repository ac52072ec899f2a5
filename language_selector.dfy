/** components/LanguageSelector.tsx: a searchable dropdown of languages. The list, the selected entry
    and the filter are functions; the open/closed state, the query and the highlight are the fields
    of `Selector`, whose methods are the key handler, the clicks and the reset effects. */
module LanguageSelector {
  import opened Wrappers
  import opened Types
  import Strings

  // ---- the language list (constants.ts) ----

  const AUTO_DETECT := LanguageOption("auto", "Auto Detect", "Detect Language", "✨")

  const SUPPORTED_LANGUAGES: seq<LanguageOption> := [
    LanguageOption("Hindi", "Hindi", "हिंदी", "🇮🇳"),
    LanguageOption("Malayalam", "Malayalam", "മലയാളം", "🇮🇳"),
    LanguageOption("Spanish", "Spanish", "Español", "🇪🇸"),
    LanguageOption("French", "French", "Français", "🇫🇷"),
    LanguageOption("German", "German", "Deutsch", "🇩🇪"),
    LanguageOption("Chinese", "Chinese", "中文", "🇨🇳"),
    LanguageOption("Japanese", "Japanese", "日本語", "🇯🇵"),
    LanguageOption("Arabic", "Arabic", "العربية", "🇸🇦"),
    LanguageOption("Russian", "Russian", "Русский", "🇷🇺"),
    LanguageOption("Portuguese", "Portuguese", "Português", "🇵🇹"),
    LanguageOption("English", "English", "English", "🇬🇧")
  ]

  /** `languages`: auto-detect is offered first, and only where the caller asks for it. */
  function Languages(includeAuto: bool): (r: seq<LanguageOption>)
    ensures includeAuto ==> r == [AUTO_DETECT] + SUPPORTED_LANGUAGES
    ensures !includeAuto ==> r == SUPPORTED_LANGUAGES
  {
    if includeAuto then [AUTO_DETECT] + SUPPORTED_LANGUAGES else SUPPORTED_LANGUAGES
  }

  /** The supported languages have distinct codes, none of them "auto". */
  lemma SupportedCodes()
    ensures forall i, j :: 0 <= i < j < |SUPPORTED_LANGUAGES| ==> SUPPORTED_LANGUAGES[i].code != SUPPORTED_LANGUAGES[j].code
    ensures forall i :: 0 <= i < |SUPPORTED_LANGUAGES| ==> SUPPORTED_LANGUAGES[i].code != "auto"
  {
    var codes := seq(|SUPPORTED_LANGUAGES|, i requires 0 <= i < |SUPPORTED_LANGUAGES| => SUPPORTED_LANGUAGES[i].code);
    assert codes == ["Hindi", "Malayalam", "Spanish", "French", "German", "Chinese", "Japanese",
                     "Arabic", "Russian", "Portuguese", "English"];
    assert forall i :: 0 <= i < |SUPPORTED_LANGUAGES| ==> SUPPORTED_LANGUAGES[i].code == codes[i];
  }

  /** Every code in the list is distinct, and "auto" is in it exactly when it was asked for. */
  lemma LanguageCodes(includeAuto: bool)
    ensures var langs := Languages(includeAuto);
      && |langs| == (if includeAuto then 12 else 11)
      && (forall i, j :: 0 <= i < j < |langs| ==> langs[i].code != langs[j].code)
      && ((exists i :: 0 <= i < |langs| && langs[i].code == "auto") <==> includeAuto)
  {
    SupportedCodes();
    var langs := Languages(includeAuto);
    if includeAuto {
      assert langs[0].code == "auto";
      assert forall i :: 1 <= i < |langs| ==> langs[i] == SUPPORTED_LANGUAGES[i - 1];
    }
  }

  // ---- the selected entry ----

  /** The index of the first entry with `code`. */
  function FirstWithCode(langs: seq<LanguageOption>, code: string): (r: Option<nat>)
    ensures r.Some? ==> r.value < |langs| && langs[r.value].code == code
                        && forall j :: 0 <= j < r.value ==> langs[j].code != code
    ensures r.None? ==> forall j :: 0 <= j < |langs| ==> langs[j].code != code
    decreases |langs|
  {
    if langs == [] then None
    else if langs[0].code == code then Some(0)
    else match FirstWithCode(langs[1..], code)
      case None => None
      case Some(k) => Some(k + 1)
  }

  /** `selectedLang`: the first entry whose code matches, else the first entry. */
  function SelectedLang(langs: seq<LanguageOption>, code: string): (r: LanguageOption)
    requires |langs| > 0
    ensures r in langs
    ensures (exists i :: 0 <= i < |langs| && langs[i].code == code) ==> r.code == code
    ensures (forall i :: 0 <= i < |langs| ==> langs[i].code != code) ==> r == langs[0]
  {
    match FirstWithCode(langs, code)
    case Some(i) => langs[i]
    case None => langs[0]
  }

  /** A stored target language of "auto" or any unknown code shows as Hindi in a list without auto-detect. */
  lemma UnknownCodeShowsFirst(code: string)
    requires forall i :: 0 <= i < |SUPPORTED_LANGUAGES| ==> SUPPORTED_LANGUAGES[i].code != code
    ensures SelectedLang(Languages(false), code).code == "Hindi"
  {
  }

  // ---- the filter ----

  /** The case-insensitive match on name or native name; `lower` is `toLowerCase`. */
  predicate Matches(lang: LanguageOption, query: string, lower: string -> string) {
    Strings.Contains(lower(lang.name), lower(query)) || Strings.Contains(lower(lang.nativeName), lower(query))
  }

  /** `filteredLanguages` */
  function Filtered(langs: seq<LanguageOption>, query: string, lower: string -> string): (r: seq<LanguageOption>)
    ensures |r| <= |langs|
    ensures forall i :: 0 <= i < |r| ==> r[i] in langs && Matches(r[i], query, lower)
    ensures forall i :: 0 <= i < |langs| && Matches(langs[i], query, lower) ==> langs[i] in r
    decreases |langs|
  {
    if langs == [] then []
    else
      var rest := Filtered(langs[1..], query, lower);
      assert forall i :: 1 <= i < |langs| ==> langs[i] == langs[1..][i - 1];
      if Matches(langs[0], query, lower) then [langs[0]] + rest else rest
  }

  /** `a` is `b` with some entries left out and the rest in their order. */
  predicate Subsequence<T(==)>(a: seq<T>, b: seq<T>)
    decreases |b|
  {
    if a == [] then true
    else if b == [] then false
    else if a[0] == b[0] then Subsequence(a[1..], b[1..])
    else Subsequence(a, b[1..])
  }

  /** The filter keeps the list's order. */
  lemma {:induction false} FilteredIsSubsequence(langs: seq<LanguageOption>, query: string, lower: string -> string)
    ensures Subsequence(Filtered(langs, query, lower), langs)
    decreases |langs|
  {
    if langs != [] {
      FilteredIsSubsequence(langs[1..], query, lower);
    }
  }

  /** An empty query keeps every entry (`"".toLowerCase()` is ""). */
  lemma {:induction false} EmptyQueryKeepsAll(langs: seq<LanguageOption>, lower: string -> string)
    requires lower("") == ""
    ensures Filtered(langs, "", lower) == langs
    decreases |langs|
  {
    if langs != [] {
      EmptyQueryKeepsAll(langs[1..], lower);
      assert Strings.StartsWith(lower(langs[0].name), "");
      assert Matches(langs[0], "", lower);
      assert langs == [langs[0]] + langs[1..];
    }
  }

  // ---- the highlight ----

  /** ArrowDown: `Math.min(h + 1, n - 1)`; on an empty list that is -1. */
  function ArrowDownIndex(h: int, n: nat): (r: int)
    ensures n > 0 && -1 <= h < n ==> 0 <= r < n
    ensures n == 0 && h >= -1 ==> r == -1
    ensures r <= h + 1 && (h + 1 < n ==> r == h + 1)
  {
    if h + 1 < n - 1 then h + 1 else n - 1
  }

  /** ArrowUp: `Math.max(h - 1, 0)`. */
  function ArrowUpIndex(h: int): (r: int)
    ensures r >= 0 && r >= h - 1
    ensures h > 0 ==> r == h - 1
  {
    if h - 1 > 0 then h - 1 else 0
  }

  function ArrowDownTimes(h: int, n: nat, k: nat): int {
    if k == 0 then h else ArrowDownIndex(ArrowDownTimes(h, n, k - 1), n)
  }

  /** Pressed k times from the top, ArrowDown lands on entry min(k, n - 1): no entry is skipped and
      the highlight rests on the last one. */
  lemma {:induction false} ArrowDownVisitsEvery(n: nat, k: nat)
    requires n > 0
    ensures ArrowDownTimes(0, n, k) == if k < n then k else n - 1
  {
    if k > 0 {
      ArrowDownVisitsEvery(n, k - 1);
    }
  }

  /** The handler as wired: the search input and the wrapper both run it, so a key pressed in the
      search box is handled twice as it bubbles. */
  function InputArrowDownIndex(h: int, n: nat): int {
    ArrowDownIndex(ArrowDownIndex(h, n), n)
  }

  function InputArrowUpIndex(h: int): int {
    ArrowUpIndex(ArrowUpIndex(h))
  }

  /** With three or more entries, ArrowDown typed in the search box moves two entries at a time:
      from the first entry it lands on the third, and ArrowUp from the third returns to the first,
      so the second entry is skipped both ways. */
  lemma InputArrowsSkipEntries(n: nat)
    requires n >= 3
    ensures InputArrowDownIndex(0, n) == 2 && InputArrowUpIndex(2) == 0
    ensures forall h :: 0 <= h < n - 2 ==> InputArrowDownIndex(h, n) == h + 2
    ensures forall h :: 2 <= h ==> InputArrowUpIndex(h) == h - 2
  {
  }

  // ---- the component ----

  datatype Key = Enter | Space | ArrowDown | ArrowUp | Escape | Other

  /** Enter, Space and ArrowDown open a closed list. */
  predicate Opens(key: Key) {
    key == Enter || key == Space || key == ArrowDown
  }

  class Selector {
    const includeAuto: bool
    const disabled: bool
    const lower: string -> string
    /** The entries offered before filtering. */
    const langs: seq<LanguageOption>
    var isOpen: bool
    var searchQuery: string
    var highlightedIndex: int
    /** The codes passed to `onChange`, in order. */
    var changes: seq<string>

    /** The entries shown for the current query. */
    function Options(): seq<LanguageOption>
      reads this
    {
      Filtered(langs, searchQuery, lower)
    }

    /** The highlight is an entry of the list, or 0 or -1 when the list is empty; a closed list
        has been reset. */
    ghost predicate Valid()
      reads this
    {
      && (if |Options()| > 0 then 0 <= highlightedIndex < |Options()| else -1 <= highlightedIndex <= 0)
      && (!isOpen ==> searchQuery == "" && highlightedIndex == 0)
    }

    constructor (includeAuto: bool, disabled: bool, lower: string -> string)
      ensures this.includeAuto == includeAuto && this.disabled == disabled && this.lower == lower
      ensures langs == Languages(includeAuto)
      ensures !isOpen && searchQuery == "" && highlightedIndex == 0 && changes == []
      ensures Valid()
    {
      this.includeAuto := includeAuto;
      this.disabled := disabled;
      this.lower := lower;
      langs := Languages(includeAuto);
      isOpen := false;
      searchQuery := "";
      highlightedIndex := 0;
      changes := [];
    }

    /** `setIsOpen(false)` and the effect it triggers: the query and the highlight are reset. */
    method Close()
      modifies this`isOpen, this`searchQuery, this`highlightedIndex
      ensures !isOpen && searchQuery == "" && highlightedIndex == 0
      ensures Valid()
    {
      isOpen := false;
      searchQuery := "";
      highlightedIndex := 0;
    }

    /** `handleKeyDown`, for one run of the handler. */
    method KeyDown(key: Key)
      requires Valid()
      modifies this`isOpen, this`searchQuery, this`highlightedIndex, this`changes
      ensures Valid()
      ensures !old(isOpen) ==>
        && isOpen == (Opens(key) && !disabled)
        && searchQuery == old(searchQuery) && highlightedIndex == old(highlightedIndex) && changes == old(changes)
      ensures old(isOpen) && (key == ArrowDown || key == ArrowUp) ==>
        && isOpen && searchQuery == old(searchQuery) && changes == old(changes)
        && highlightedIndex == if key == ArrowDown then ArrowDownIndex(old(highlightedIndex), |old(Options())|)
                               else ArrowUpIndex(old(highlightedIndex))
      ensures old(isOpen) && key == Enter ==>
        var opts, h := old(Options()), old(highlightedIndex);
        if 0 <= h < |opts| then changes == old(changes) + [opts[h].code] && !isOpen
        else changes == old(changes) && isOpen && searchQuery == old(searchQuery) && highlightedIndex == h
      ensures old(isOpen) && key == Escape ==> !isOpen && changes == old(changes)
      ensures old(isOpen) && (key == Space || key == Other) ==>
        isOpen && searchQuery == old(searchQuery) && highlightedIndex == old(highlightedIndex) && changes == old(changes)
    {
      if !isOpen {
        if Opens(key) && !disabled {
          isOpen := true;
        }
        return;
      }
      var n := |Options()|;
      match key {
        case ArrowDown =>
          highlightedIndex := ArrowDownIndex(highlightedIndex, n);
        case ArrowUp =>
          highlightedIndex := ArrowUpIndex(highlightedIndex);
        case Enter =>
          if 0 <= highlightedIndex < n {
            changes := changes + [Options()[highlightedIndex].code];
            Close();
          }
        case Escape =>
          Close();
        case _ =>
      }
    }

    /** The toggle button: ignored while disabled; opening keeps the query and the highlight, closing resets them. */
    method Toggle()
      requires Valid()
      modifies this`isOpen, this`searchQuery, this`highlightedIndex
      ensures Valid()
      ensures disabled ==> isOpen == old(isOpen) && searchQuery == old(searchQuery) && highlightedIndex == old(highlightedIndex)
      ensures !disabled ==> isOpen == !old(isOpen)
      ensures !disabled && !old(isOpen) ==> searchQuery == old(searchQuery) && highlightedIndex == old(highlightedIndex)
      ensures !disabled && old(isOpen) ==> searchQuery == "" && highlightedIndex == 0
    {
      if disabled {
        return;
      }
      if isOpen {
        Close();
      } else {
        isOpen := true;
      }
    }

    /** Typing in the search box (shown only while open): a changed query moves the highlight to the top. */
    method SetQuery(q: string)
      requires Valid() && isOpen
      modifies this`searchQuery, this`highlightedIndex
      ensures Valid()
      ensures searchQuery == q
      ensures highlightedIndex == if q == old(searchQuery) then old(highlightedIndex) else 0
    {
      if q != searchQuery {
        searchQuery := q;
        highlightedIndex := 0;
      }
    }

    /** The pointer entering option `idx`. */
    method Hover(idx: nat)
      requires Valid() && isOpen && idx < |Options()|
      modifies this`highlightedIndex
      ensures Valid() && highlightedIndex == idx
    {
      highlightedIndex := idx;
    }

    /** Clicking option `idx`: its code is reported and the list closes. */
    method Pick(idx: nat)
      requires Valid() && isOpen && idx < |Options()|
      modifies this`isOpen, this`searchQuery, this`highlightedIndex, this`changes
      ensures Valid() && !isOpen
      ensures changes == old(changes) + [old(Options())[idx].code]
    {
      changes := changes + [Options()[idx].code];
      Close();
    }
  }
}
