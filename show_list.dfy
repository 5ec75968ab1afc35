/**
  The ShowList model's two static helpers: `formatTitle`, the character-level
  normaliser that turns a title into a search term, and `formatShowData`, the
  record stored in favourites and user lists.
 */
module ShowList {
  import opened Wrappers
  import opened Text

  /** The accented letters the seven accent classes remove, in both cases: a, e, i, o, u with
      their listed accents, ñ/Ñ and ç/Ç. In Latin-1 order they form these eight ranges. */
  predicate IsAccented(c: char) {
    ('\U{C0}' <= c <= '\U{C5}') || ('\U{C7}' <= c <= '\U{CF}') || ('\U{D1}' <= c <= '\U{D6}')
    || ('\U{D9}' <= c <= '\U{DC}') || ('\U{E0}' <= c <= '\U{E5}') || ('\U{E7}' <= c <= '\U{EF}')
    || ('\U{F1}' <= c <= '\U{F6}') || ('\U{F9}' <= c <= '\U{FC}')
  }

  /** The punctuation class ()[]{}:;,.'"!¡?¿&%$#@*+-/\ that is removed. */
  predicate IsSpecial(c: char) {
    c == '(' || c == ')' || c == '[' || c == ']' || c == '{' || c == '}' || c == ':' || c == ';'
    || c == ',' || c == '.' || c == '\'' || c == '"' || c == '!' || c == '\U{A1}' || c == '?'
    || c == '\U{BF}' || c == '&' || c == '%' || c == '$' || c == '#' || c == '@' || c == '*'
    || c == '+' || c == '-' || c == '/' || c == '\\'
  }

  /** `preg_replace('/[...]/', '', $s)`: every character of the class deleted, the rest kept in order. */
  function Strip(s: string, drop: char -> bool): (r: string)
    ensures |r| <= |s|
    ensures forall i :: 0 <= i < |r| ==> !drop(r[i]) && r[i] in s
  {
    if s == [] then []
    else if drop(s[0]) then Strip(s[1..], drop)
    else [s[0]] + Strip(s[1..], drop)
  }

  /** The rest of `s` after its leading run of white space. */
  function SkipSpaces(s: string): (r: string)
    ensures |r| <= |s| && r == s[|s| - |r|..]
    ensures r != [] ==> !IsPcreSpace(r[0])
  {
    if s != [] && IsPcreSpace(s[0]) then SkipSpaces(s[1..]) else s
  }

  /** `preg_replace('/\s+/', '_', $s)`: each maximal run of white space becomes one underscore. */
  function CollapseSpaces(s: string): (r: string)
    ensures |r| <= |s|
    ensures forall i :: 0 <= i < |r| ==> !IsPcreSpace(r[i]) && (r[i] == '_' || r[i] in s)
    decreases |s|
  {
    if s == [] then []
    else if IsPcreSpace(s[0]) then
      var rest := SkipSpaces(s[1..]);
      assert forall c :: c in rest ==> c in s;
      "_" + CollapseSpaces(rest)
    else
      [s[0]] + CollapseSpaces(s[1..])
  }

  /** ShowList::formatTitle. */
  function FormatTitle(title: string): (r: string)
    ensures |r| <= |title|
  {
    LowerAscii(CollapseSpaces(Strip(Strip(title, IsAccented), IsSpecial)))
  }

  /** A search term as formatTitle produces it: no white space, none of the removed characters,
      no upper-case ASCII letter. */
  predicate IsSearchToken(t: string) {
    forall i :: 0 <= i < |t| ==>
      !IsPcreSpace(t[i]) && !IsAccented(t[i]) && !IsSpecial(t[i]) && !IsAsciiUpper(t[i])
  }

  /** The output of formatTitle is clean and never longer than its input. */
  lemma FormatTitleIsToken(title: string)
    ensures IsSearchToken(FormatTitle(title))
    ensures |FormatTitle(title)| <= |title|
  {
    var a := Strip(title, IsAccented);
    var b := Strip(a, IsSpecial);
    var c := CollapseSpaces(b);
    forall i | 0 <= i < |c| ensures !IsAccented(c[i]) && !IsSpecial(c[i]) {
      if c[i] != '_' {
        assert c[i] in b;
        assert c[i] in a;
      }
    }
  }

  /** Stripping deletes nothing when no character belongs to the class. */
  lemma {:induction false} StripNothing(s: string, drop: char -> bool)
    requires forall i :: 0 <= i < |s| ==> !drop(s[i])
    ensures Strip(s, drop) == s
  {
    if s != [] {
      StripNothing(s[1..], drop);
    }
  }

  /** Collapsing changes nothing in a string without white space. */
  lemma {:induction false} CollapseNothing(s: string)
    requires forall i :: 0 <= i < |s| ==> !IsPcreSpace(s[i])
    ensures CollapseSpaces(s) == s
  {
    if s != [] {
      CollapseNothing(s[1..]);
    }
  }

  /** formatTitle is idempotent. */
  lemma FormatTitleIdempotent(title: string)
    ensures FormatTitle(FormatTitle(title)) == FormatTitle(title)
  {
    var t := FormatTitle(title);
    FormatTitleIsToken(title);
    StripNothing(t, IsAccented);
    StripNothing(t, IsSpecial);
    CollapseNothing(t);
    LowerAsciiNoUpper(t);
  }

  /** One of the characters formatTitle deletes outright. */
  predicate IsRemoved(c: char) {
    IsAccented(c) || IsSpecial(c)
  }

  /** formatTitle deletes the accented and special characters in one pass (nothing is
      transliterated), then collapses the white space and lower-cases, for every title. */
  lemma FormatTitleDeletesThenCollapses(title: string)
    ensures FormatTitle(title) == LowerAscii(CollapseSpaces(Strip(title, IsRemoved)))
  {
    StripTwice(title, IsAccented, IsSpecial, IsRemoved);
  }

  /** Deletion works character by character: the survivors of each part keep their order. */
  lemma {:induction false} StripAppend(a: string, b: string, drop: char -> bool)
    ensures Strip(a + b, drop) == Strip(a, drop) + Strip(b, drop)
  {
    if a == [] {
      assert a + b == b;
    } else {
      assert (a + b)[0] == a[0] && (a + b)[1..] == a[1..] + b;
      StripAppend(a[1..], b, drop);
    }
  }

  /** Lower-casing works character by character. */
  lemma {:induction false} LowerAsciiAppend(a: string, b: string)
    ensures LowerAscii(a + b) == LowerAscii(a) + LowerAscii(b)
  {
    if a == [] {
      assert a + b == b;
    } else {
      assert (a + b)[0] == a[0] && (a + b)[1..] == a[1..] + b;
      LowerAsciiAppend(a[1..], b);
    }
  }

  /** A string with no white space, then one run of white space, then a string that does not
      start with white space: the run becomes the only `_`. */
  lemma {:induction false} CollapseWordThenRun(w: string, run: string, rest: string)
    requires forall i :: 0 <= i < |w| ==> !IsPcreSpace(w[i])
    requires run != [] && forall i :: 0 <= i < |run| ==> IsPcreSpace(run[i])
    requires rest == [] || !IsPcreSpace(rest[0])
    ensures CollapseSpaces(w + run + rest) == w + "_" + CollapseSpaces(rest)
  {
    if w == [] {
      var t := run + rest;
      assert w + run + rest == t;
      assert t[0] == run[0] && t[1..] == run[1..] + rest;
      SkipRun(run[1..], rest);
      assert CollapseSpaces(t) == "_" + CollapseSpaces(SkipSpaces(t[1..]));
    } else {
      assert (w + run + rest)[0] == w[0] && (w + run + rest)[1..] == w[1..] + run + rest;
      CollapseWordThenRun(w[1..], run, rest);
    }
  }

  /** Skipping white space stops exactly at the end of the run. */
  lemma {:induction false} SkipRun(run: string, rest: string)
    requires forall i :: 0 <= i < |run| ==> IsPcreSpace(run[i])
    requires rest == [] || !IsPcreSpace(rest[0])
    ensures SkipSpaces(run + rest) == rest
  {
    if run == [] {
      assert run + rest == rest;
    } else {
      assert (run + rest)[1..] == run[1..] + rest;
      SkipRun(run[1..], rest);
    }
  }

  /** On a title without white space formatTitle only deletes characters and lower-cases the rest:
      accented letters are dropped, not transliterated. */
  lemma FormatTitleDeletesOnly(title: string)
    requires forall i :: 0 <= i < |title| ==> !IsPcreSpace(title[i])
    ensures FormatTitle(title) == LowerAscii(Strip(title, IsRemoved))
  {
    var b := Strip(title, IsRemoved);
    forall i | 0 <= i < |b| ensures !IsPcreSpace(b[i]) {
      assert b[i] in title;
    }
    CollapseNothing(b);
    FormatTitleDeletesThenCollapses(title);
  }

  /** A white-space run survives deletion, and the two words' survivors sit on either side of it. */
  lemma StripAroundRun(first: string, gap: string, second: string)
    requires forall i :: 0 <= i < |gap| ==> IsPcreSpace(gap[i])
    ensures Strip(first + gap + second, IsRemoved) == Strip(first, IsRemoved) + gap + Strip(second, IsRemoved)
  {
    StripAppend(first + gap, second, IsRemoved);
    StripAppend(first, gap, IsRemoved);
    forall i | 0 <= i < |gap| ensures !IsRemoved(gap[i]) {
      SpaceIsKept(gap[i]);
    }
    StripNothing(gap, IsRemoved);
  }

  /** No white-space character is accented or special. */
  lemma SpaceIsKept(c: char)
    requires IsPcreSpace(c)
    ensures !IsRemoved(c)
  {
  }

  /** What survives deletion in a word without white space has no white space either. */
  lemma StrippedWord(w: string)
    requires forall i :: 0 <= i < |w| ==> !IsPcreSpace(w[i])
    ensures forall i :: 0 <= i < |Strip(w, IsRemoved)| ==> !IsPcreSpace(Strip(w, IsRemoved)[i])
  {
    var r := Strip(w, IsRemoved);
    forall i | 0 <= i < |r| ensures !IsPcreSpace(r[i]) {
      assert r[i] in w;
    }
  }

  /** Lower-casing a word, `_` and a word. */
  lemma LowerAroundUnderscore(a: string, b: string)
    ensures LowerAscii(a + "_" + b) == LowerAscii(a) + "_" + LowerAscii(b)
  {
    LowerAsciiAppend(a + "_", b);
    LowerAsciiAppend(a, "_");
  }

  /** Two words separated by white space format as the two formatted words joined by `_`, in
      their order. */
  lemma TwoWordTitle(first: string, gap: string, second: string)
    requires forall i :: 0 <= i < |first| ==> !IsPcreSpace(first[i])
    requires forall i :: 0 <= i < |second| ==> !IsPcreSpace(second[i])
    requires gap != [] && forall i :: 0 <= i < |gap| ==> IsPcreSpace(gap[i])
    ensures FormatTitle(first + gap + second) == FormatTitle(first) + "_" + FormatTitle(second)
  {
    var f, s := Strip(first, IsRemoved), Strip(second, IsRemoved);
    StrippedWord(first);
    StrippedWord(second);
    calc {
      FormatTitle(first + gap + second);
      { FormatTitleDeletesThenCollapses(first + gap + second); }
      LowerAscii(CollapseSpaces(Strip(first + gap + second, IsRemoved)));
      { StripAroundRun(first, gap, second); }
      LowerAscii(CollapseSpaces(f + gap + s));
      { CollapseWordThenRun(f, gap, s); CollapseNothing(s); }
      LowerAscii(f + "_" + s);
      { LowerAroundUnderscore(f, s); }
      LowerAscii(f) + "_" + LowerAscii(s);
      { FormatTitleDeletesOnly(first); FormatTitleDeletesOnly(second); }
      FormatTitle(first) + "_" + FormatTitle(second);
    }
  }

  /** Deletion of one character of the class leaves the survivors on either side of it. */
  lemma StripDropsOne(before: string, c: char, after: string, drop: char -> bool)
    requires drop(c)
    ensures Strip(before + [c] + after, drop) == Strip(before, drop) + Strip(after, drop)
  {
    StripAppend(before + [c], after, drop);
    StripAppend(before, [c], drop);
    assert [c][1..] == [];
  }

  /** Gluing two strings without white space around a removed character gives no white space. */
  lemma NoSpaceAround(before: string, c: char, after: string)
    requires forall i :: 0 <= i < |before| ==> !IsPcreSpace(before[i])
    requires forall i :: 0 <= i < |after| ==> !IsPcreSpace(after[i])
    requires IsRemoved(c)
    ensures forall i :: 0 <= i < |before + [c] + after| ==> !IsPcreSpace((before + [c] + after)[i])
  {
    var t := before + [c] + after;
    forall i | 0 <= i < |t| ensures !IsPcreSpace(t[i]) {
      if i > |before| { assert t[i] == after[i - |before| - 1]; }
    }
  }

  /** In a title without white space, an accented or special character vanishes without a
      trace: nothing takes its place and its neighbours close up in order. */
  lemma RemovedCharacterVanishes(before: string, c: char, after: string)
    requires forall i :: 0 <= i < |before| ==> !IsPcreSpace(before[i])
    requires forall i :: 0 <= i < |after| ==> !IsPcreSpace(after[i])
    requires IsRemoved(c)
    ensures FormatTitle(before + [c] + after) == FormatTitle(before) + FormatTitle(after)
  {
    var b, a := Strip(before, IsRemoved), Strip(after, IsRemoved);
    calc {
      FormatTitle(before + [c] + after);
      { NoSpaceAround(before, c, after); FormatTitleDeletesOnly(before + [c] + after); }
      LowerAscii(Strip(before + [c] + after, IsRemoved));
      { StripDropsOne(before, c, after, IsRemoved); }
      LowerAscii(b + a);
      { LowerAsciiAppend(b, a); }
      LowerAscii(b) + LowerAscii(a);
      { FormatTitleDeletesOnly(before); FormatTitleDeletesOnly(after); }
      FormatTitle(before) + FormatTitle(after);
    }
  }

  /** A word of lower-case ASCII letters is its own normal form. */
  lemma LowerWordIsKept(w: string)
    requires forall i :: 0 <= i < |w| ==> 'a' <= w[i] <= 'z'
    ensures FormatTitle(w) == w
  {
    StripNothing(w, IsRemoved);
    FormatTitleDeletesOnly(w);
    LowerAsciiNoUpper(w);
  }

  /** "café" becomes "caf". */
  lemma CafeWord()
    ensures FormatTitle("caf\U{E9}") == "caf"
  {
    calc {
      FormatTitle("caf\U{E9}");
      { assert "caf" + ['\U{E9}'] + "" == "caf\U{E9}"; }
      FormatTitle("caf" + ['\U{E9}'] + "");
      { RemovedCharacterVanishes("caf", '\U{E9}', ""); }
      FormatTitle("caf") + FormatTitle("");
      { LowerWordIsKept("caf"); LowerWordIsKept(""); }
      "caf";
    }
  }

  /** "ñu" becomes "u". */
  lemma NuWord()
    ensures FormatTitle("\U{F1}u") == "u"
  {
    calc {
      FormatTitle("\U{F1}u");
      { assert "" + ['\U{F1}'] + "u" == "\U{F1}u"; }
      FormatTitle("" + ['\U{F1}'] + "u");
      { RemovedCharacterVanishes("", '\U{F1}', "u"); }
      FormatTitle("") + FormatTitle("u");
      { LowerWordIsKept(""); LowerWordIsKept("u"); }
      "u";
    }
  }

  /** The two example words hold no white space. */
  lemma ExampleWordsHaveNoSpace()
    ensures forall i :: 0 <= i < |"caf\U{E9}"| ==> !IsPcreSpace("caf\U{E9}"[i])
    ensures forall i :: 0 <= i < |"\U{F1}u"| ==> !IsPcreSpace("\U{F1}u"[i])
  {
  }

  /** "café ñu" becomes "caf_u": the accented letters are deleted, not replaced by e and n. */
  lemma AccentsAreDeleted()
    ensures FormatTitle("caf\U{E9} \U{F1}u") == "caf_u"
  {
    calc {
      FormatTitle("caf\U{E9} \U{F1}u");
      { assert "caf\U{E9}" + " " + "\U{F1}u" == "caf\U{E9} \U{F1}u"; }
      FormatTitle("caf\U{E9}" + " " + "\U{F1}u");
      { ExampleWordsHaveNoSpace(); TwoWordTitle("caf\U{E9}", " ", "\U{F1}u"); }
      FormatTitle("caf\U{E9}") + "_" + FormatTitle("\U{F1}u");
      { CafeWord(); NuWord(); }
      "caf_u";
    }
  }

  /** Two successive deletions delete the union of the two classes. */
  lemma {:induction false} StripTwice(s: string, p: char -> bool, q: char -> bool, both: char -> bool)
    requires forall c :: both(c) == (p(c) || q(c))
    ensures Strip(Strip(s, p), q) == Strip(s, both)
  {
    if s != [] {
      StripTwice(s[1..], p, q, both);
    }
  }

  /** The show data a search result, favourite or list entry carries. */
  datatype ShowData = ShowData(
    tmdbId: string,
    title: string,
    formattedTitle: string,
    backgroundImage: string,
    logoImage: Option<string>,
    showType: string)

  /** The validated request fields formatShowData reads. */
  datatype ShowRequest = ShowRequest(
    tmdbId: string,
    title: string,
    backgroundImage: string,
    logoImage: Option<string>,
    showType: string)

  /** ShowList::formatShowData: the five request fields unchanged plus the formatted title. */
  function FormatShowData(request: ShowRequest): (d: ShowData)
    ensures d.tmdbId == request.tmdbId && d.title == request.title && d.showType == request.showType
    ensures d.backgroundImage == request.backgroundImage && d.logoImage == request.logoImage
    ensures IsSearchToken(d.formattedTitle) && |d.formattedTitle| <= |request.title|
    ensures d.formattedTitle == FormatTitle(request.title)
  {
    FormatTitleIsToken(request.title);
    ShowData(request.tmdbId, request.title, FormatTitle(request.title),
             request.backgroundImage, request.logoImage, request.showType)
  }
}
