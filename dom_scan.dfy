/**
  The DOM scan the m3u8 extractor runs inside the player page: a priority
  search over a snapshot of the page for the first HLS playlist URL, taken
  from `<video>` sources, then `<video><source>` sources, then script texts,
  then the JWPlayer playlist, with the play buttons clicked only when nothing
  was found.
 */
module DomScan {
  import opened Wrappers
  import opened Text

  /** What the scan reads from the page: the `src` of every `<video>` and of every `<video> <source>`
      in document order, the text of every `<script>`, and the file of the JWPlayer playlist's first
      item when the player exists and that file is a non-empty string. */
  datatype PageSnapshot = PageSnapshot(
    videoSrcs: seq<string>,
    sourceSrcs: seq<string>,
    scripts: seq<string>,
    jwPlaylistFile: Option<string>)

  /** The value the scan returns, and whether it fell through to clicking the play buttons. */
  datatype ScanResult = ScanResult(url: Option<string>, clickedPlay: bool)

  const M3u8 := ".m3u8"

  /** The first element whose `src` is truthy and contains ".m3u8" (case-sensitive `includes`). */
  function FirstM3u8Src(srcs: seq<string>): (r: Option<string>)
    ensures r.Some? ==> r.value in srcs && Contains(r.value, M3u8)
    ensures r.Some? ==> exists k :: 0 <= k < |srcs| && srcs[k] == r.value && NoM3u8Before(srcs, k)
    ensures r.None? ==> forall k :: 0 <= k < |srcs| ==> !Contains(srcs[k], M3u8)
  {
    if srcs == [] then None
    else if srcs[0] != "" && Contains(srcs[0], M3u8) then
      assert NoM3u8Before(srcs, 0);
      Some(srcs[0])
    else
      var r := FirstM3u8Src(srcs[1..]);
      assert forall k :: 1 <= k < |srcs| ==> srcs[k] == srcs[1..][k - 1];
      if r.Some? then
        var k :| 0 <= k < |srcs[1..]| && srcs[1..][k] == r.value && NoM3u8Before(srcs[1..], k);
        assert !Contains(srcs[0], M3u8) by {
          if srcs[0] == "" { EmptyContainsNothing(M3u8); }
        }
        assert NoM3u8Before(srcs, k + 1);
        r
      else r
  }

  /** No element before index `k` contains ".m3u8". */
  predicate NoM3u8Before(srcs: seq<string>, k: nat)
    requires k <= |srcs|
  {
    forall j :: 0 <= j < k ==> !Contains(srcs[j], M3u8)
  }

  lemma EmptyContainsNothing(sub: string)
    requires sub != ""
    ensures !Contains("", sub)
  {
    if Contains("", sub) {
      ContainsHasIndex("", sub);
    }
  }

  predicate IsQuote(c: char) { c == '\'' || c == '"' }

  /** The index of the first quote at or after `i`, or `|s|`. */
  function NextQuote(s: string, i: nat): (k: nat)
    requires i <= |s|
    ensures i <= k <= |s|
    ensures forall j :: i <= j < k ==> !IsQuote(s[j])
    ensures k < |s| ==> IsQuote(s[k])
    decreases |s| - i
  {
    if i < |s| && !IsQuote(s[i]) then NextQuote(s, i + 1) else i
  }

  /** ".m3u8" occurs in `seg` at an index of at least 1, ignoring ASCII case (the `/i` flag). */
  predicate HasM3u8AfterFirst(seg: string) {
    seg != [] && Contains(LowerAscii(seg[1..]), M3u8)
  }

  /** The capture of `['"]([^'"]+\.m3u8[^'"]*)['"]` when the match starts at `i`. The class
      `[^'"]` runs up to the next quote and the match must end on a quote, so the capture is the
      whole quote-free segment after the opening quote. */
  function BareAt(s: string, i: nat): (r: Option<string>)
    requires i <= |s|
    ensures r.Some? ==> HasM3u8AfterFirst(r.value) && forall j :: 0 <= j < |r.value| ==> !IsQuote(r.value[j])
  {
    if i == |s| || !IsQuote(s[i]) then None
    else
      var q := NextQuote(s, i + 1);
      if q == |s| || !HasM3u8AfterFirst(s[i + 1..q]) then None else Some(s[i + 1..q])
  }

  /** `String.prototype.match` with the bare pattern: the leftmost match at or after `from`. */
  function Bare(s: string, from: nat): (r: Option<string>)
    requires from <= |s|
    ensures r.Some? ==> HasM3u8AfterFirst(r.value) && forall j :: 0 <= j < |r.value| ==> !IsQuote(r.value[j])
    decreases |s| - from
  {
    if BareAt(s, from).Some? then BareAt(s, from)
    else if from == |s| then None
    else Bare(s, from + 1)
  }

  /** The index of the first character at or after `i` that is not JavaScript white space. */
  function SkipJsSpaces(s: string, i: nat): (k: nat)
    requires i <= |s|
    ensures i <= k <= |s|
    ensures k < |s| ==> !IsJsSpace(s[k])
    decreases |s| - i
  {
    if i < |s| && IsJsSpace(s[i]) then SkipJsSpaces(s, i + 1) else i
  }

  /** The capture of `key:\s*['"]([^'"]+\.m3u8[^'"]*)['"]` (key matched ignoring ASCII case) when
      the match starts at `p`: where the white space ends, the bare pattern must match. */
  function KeyedAt(s: string, key: string, p: nat): (r: Option<string>)
    requires p <= |s|
  {
    if p + |key| < |s| && LowerAscii(s[p..p + |key|]) == key && s[p + |key|] == ':' then
      BareAt(s, SkipJsSpaces(s, p + |key| + 1))
    else None
  }

  function Keyed(s: string, key: string, from: nat): Option<string>
    requires from <= |s|
    decreases |s| - from
  {
    if KeyedAt(s, key, from).Some? then KeyedAt(s, key, from)
    else if from == |s| then None
    else Keyed(s, key, from + 1)
  }

  /** The five script patterns, in the order they are tried. */
  datatype Pattern = BarePattern | KeyedPattern(key: string)

  const Patterns: seq<Pattern> := [BarePattern, KeyedPattern("file"), KeyedPattern("source"), KeyedPattern("src"), KeyedPattern("url")]

  function PatternMatch(content: string, p: Pattern): Option<string> {
    match p
    case BarePattern => Bare(content, 0)
    case KeyedPattern(key) => Keyed(content, key, 0)
  }

  /** The capture of the first pattern that matches with a non-empty capture. */
  function FirstPatternMatch(content: string, ps: seq<Pattern>): Option<string> {
    if ps == [] then None
    else
      var m := PatternMatch(content, ps[0]);
      if m.Some? && m.value != "" then m else FirstPatternMatch(content, ps[1..])
  }

  /** The hit of the first script in which some pattern matches. */
  function FirstScriptHit(scripts: seq<string>): Option<string> {
    if scripts == [] then None
    else
      var m := FirstPatternMatch(scripts[0], Patterns);
      if m.Some? then m else FirstScriptHit(scripts[1..])
  }

  function JwPlayerFile(file: Option<string>): (r: Option<string>)
    ensures r.Some? ==> file == r && Contains(r.value, M3u8)
  {
    if file.Some? && Contains(file.value, M3u8) then file else None
  }

  /** The scan's priority: video sources, then source elements, then scripts, then JWPlayer;
      play is clicked only when all four found nothing. */
  function Scan(page: PageSnapshot): (r: ScanResult)
    ensures r.clickedPlay <==> r.url.None?
  {
    var video := FirstM3u8Src(page.videoSrcs);
    if video.Some? then ScanResult(video, false)
    else
      var source := FirstM3u8Src(page.sourceSrcs);
      if source.Some? then ScanResult(source, false)
      else
        var script := FirstScriptHit(page.scripts);
        if script.Some? then ScanResult(script, false)
        else
          var jw := JwPlayerFile(page.jwPlaylistFile);
          if jw.Some? then ScanResult(jw, false) else ScanResult(None, true)
  }

  // ---------------------------------------------------------------- properties

  /** A bare match exists at or before any position where a keyed pattern's quoted part starts. */
  lemma {:induction false} BareFindsAt(s: string, from: nat, c: nat)
    requires from <= c <= |s| && BareAt(s, c).Some?
    ensures Bare(s, from).Some?
    decreases c - from
  {
    if BareAt(s, from).None? {
      assert from != c;
      BareFindsAt(s, from + 1, c);
    }
  }

  /** One step of `Bare`: a match at `from` is the answer, otherwise the search moves on. */
  lemma BareStep(s: string, from: nat)
    requires from <= |s|
    ensures BareAt(s, from).Some? ==> Bare(s, from) == BareAt(s, from)
    ensures BareAt(s, from).None? && from == |s| ==> Bare(s, from).None?
    ensures BareAt(s, from).None? && from < |s| ==> Bare(s, from) == Bare(s, from + 1)
  {
  }

  /** `Bare` answers with the match at the leftmost position where one starts. */
  lemma {:induction false} BareIsLeftmost(s: string, from: nat)
    requires from <= |s|
    ensures Bare(s, from).Some? ==>
      exists i :: from <= i <= |s| && BareAt(s, i) == Bare(s, from) && NoBareBefore(s, from, i)
    decreases |s| - from
  {
    BareStep(s, from);
    if BareAt(s, from).Some? {
      assert NoBareBefore(s, from, from);
    } else if from < |s| && Bare(s, from).Some? {
      BareIsLeftmost(s, from + 1);
      var i :| from + 1 <= i <= |s| && BareAt(s, i) == Bare(s, from + 1) && NoBareBefore(s, from + 1, i);
      NoBareBeforeExtends(s, from, i);
    }
  }

  lemma NoBareBeforeExtends(s: string, from: nat, i: nat)
    requires from < i <= |s| + 1
    requires BareAt(s, from).None? && NoBareBefore(s, from + 1, i)
    ensures NoBareBefore(s, from, i)
  {
  }

  /** `Bare` finds nothing exactly when no position at or after `from` starts a match. */
  lemma {:induction false} BareNoneIff(s: string, from: nat)
    requires from <= |s|
    ensures Bare(s, from).None? <==> NoBareBefore(s, from, |s| + 1)
    decreases |s| - from
  {
    BareStep(s, from);
    if BareAt(s, from).None? && from < |s| {
      BareNoneIff(s, from + 1);
      if NoBareBefore(s, from + 1, |s| + 1) {
        NoBareBeforeExtends(s, from, |s| + 1);
      }
    }
  }

  /** No bare match starts in `[from, i)`. */
  predicate NoBareBefore(s: string, from: nat, i: nat)
    requires from <= i <= |s| + 1
  {
    forall j :: from <= j < i ==> BareAt(s, j).None?
  }

  /** Whenever a keyed pattern matches, so does the bare pattern. */
  lemma {:induction false} KeyedImpliesBare(s: string, key: string, from: nat)
    requires from <= |s| && Keyed(s, key, from).Some?
    ensures Bare(s, 0).Some?
    decreases |s| - from
  {
    if KeyedAt(s, key, from).Some? {
      BareFindsAt(s, 0, SkipJsSpaces(s, from + |key| + 1));
    } else {
      KeyedImpliesBare(s, key, from + 1);
    }
  }

  /** So the keyed patterns never decide a script hit: it is always the bare pattern's capture. */
  lemma ScriptHitIsBare(content: string)
    ensures FirstPatternMatch(content, Patterns) == Bare(content, 0)
  {
    var b := Bare(content, 0);
    if b.None? {
      forall k | 0 <= k < |Patterns|
        ensures PatternMatch(content, Patterns[k]).None?
      {
        if k > 0 && Keyed(content, Patterns[k].key, 0).Some? {
          KeyedImpliesBare(content, Patterns[k].key, 0);
        }
      }
      NoPatternMatches(content, Patterns);
    }
  }

  lemma {:induction false} NoPatternMatches(content: string, ps: seq<Pattern>)
    requires forall k :: 0 <= k < |ps| ==> PatternMatch(content, ps[k]).None?
    ensures FirstPatternMatch(content, ps).None?
  {
    if ps != [] {
      assert forall k :: 0 <= k < |ps[1..]| ==> ps[1..][k] == ps[k + 1];
      NoPatternMatches(content, ps[1..]);
    }
  }

  /** The hit of a script list is the bare-pattern capture of the first script that has one. */
  lemma {:induction false} ScriptHitsAreBare(scripts: seq<string>)
    ensures FirstScriptHit(scripts).Some? ==>
      exists k :: 0 <= k < |scripts| && FirstScriptHit(scripts) == Bare(scripts[k], 0) && NoBareScriptBefore(scripts, k)
    ensures FirstScriptHit(scripts).None? <==> forall k :: 0 <= k < |scripts| ==> Bare(scripts[k], 0).None?
  {
    if scripts != [] {
      ScriptHitIsBare(scripts[0]);
      ScriptHitsAreBare(scripts[1..]);
      if FirstPatternMatch(scripts[0], Patterns).Some? {
        assert NoBareScriptBefore(scripts, 0);
      } else if FirstScriptHit(scripts).Some? {
        var k :| 0 <= k < |scripts[1..]| && FirstScriptHit(scripts[1..]) == Bare(scripts[1..][k], 0) && NoBareScriptBefore(scripts[1..], k);
        assert scripts[1..][k] == scripts[k + 1];
        assert NoBareScriptBefore(scripts, k + 1) by {
          forall j | 0 <= j < k + 1 ensures Bare(scripts[j], 0).None? {
            if j > 0 { assert scripts[j] == scripts[1..][j - 1]; }
          }
        }
      }
      assert forall k :: 1 <= k < |scripts| ==> scripts[k] == scripts[1..][k - 1];
    }
  }

  /** No script before index `k` has a bare-pattern match. */
  predicate NoBareScriptBefore(scripts: seq<string>, k: nat)
    requires k <= |scripts|
  {
    forall j :: 0 <= j < k ==> Bare(scripts[j], 0).None?
  }

  /** The scan's priority: a `<video>` hit wins; only without one does a `<source>` hit count;
      only without both does a script hit count; JWPlayer is consulted last. */
  lemma ScanPriority(page: PageSnapshot)
    ensures FirstM3u8Src(page.videoSrcs).Some? ==> Scan(page).url == FirstM3u8Src(page.videoSrcs)
    ensures FirstM3u8Src(page.videoSrcs).None? && FirstM3u8Src(page.sourceSrcs).Some? ==>
      Scan(page).url == FirstM3u8Src(page.sourceSrcs)
    ensures FirstM3u8Src(page.videoSrcs).None? && FirstM3u8Src(page.sourceSrcs).None? && FirstScriptHit(page.scripts).Some? ==>
      Scan(page).url == FirstScriptHit(page.scripts)
    ensures FirstM3u8Src(page.videoSrcs).None? && FirstM3u8Src(page.sourceSrcs).None? && FirstScriptHit(page.scripts).None? ==>
      Scan(page).url == JwPlayerFile(page.jwPlaylistFile)
  {
  }

  /** Every URL found contains ".m3u8": exactly on the attribute and JWPlayer paths, ignoring case
      on the script path. */
  lemma ScanFindsM3u8(page: PageSnapshot)
    ensures var r := Scan(page);
      r.url.Some? ==>
        || (r.url.value in page.videoSrcs && Contains(r.url.value, M3u8))
        || (r.url.value in page.sourceSrcs && Contains(r.url.value, M3u8))
        || (Contains(LowerAscii(r.url.value), M3u8)
            && exists k :: 0 <= k < |page.scripts| && r.url == Bare(page.scripts[k], 0))
        || (page.jwPlaylistFile == r.url && Contains(r.url.value, M3u8))
  {
    var r := Scan(page);
    if r.url.Some? && FirstM3u8Src(page.videoSrcs).None? && FirstM3u8Src(page.sourceSrcs).None?
       && FirstScriptHit(page.scripts).Some? {
      ScriptHitsAreBare(page.scripts);
      var seg := r.url.value;
      assert HasM3u8AfterFirst(seg);
      assert LowerAscii(seg) == [AsciiLower(seg[0])] + LowerAscii(seg[1..]);
      ContainsInConcat([AsciiLower(seg[0])], LowerAscii(seg[1..]), [], M3u8);
      assert [AsciiLower(seg[0])] + LowerAscii(seg[1..]) + [] == LowerAscii(seg);
    }
  }

  /** The play buttons are clicked exactly when nothing was found. */
  lemma ClickOnlyWhenNotFound(page: PageSnapshot)
    ensures Scan(page).clickedPlay <==> Scan(page).url.None?
    ensures Scan(page).url.None? <==>
      && (forall k :: 0 <= k < |page.videoSrcs| ==> !Contains(page.videoSrcs[k], M3u8))
      && (forall k :: 0 <= k < |page.sourceSrcs| ==> !Contains(page.sourceSrcs[k], M3u8))
      && (forall k :: 0 <= k < |page.scripts| ==> Bare(page.scripts[k], 0).None?)
      && (page.jwPlaylistFile.None? || !Contains(page.jwPlaylistFile.value, M3u8))
  {
    ScriptHitsAreBare(page.scripts);
    var v := page.videoSrcs;
    if FirstM3u8Src(v).Some? {
      var k :| 0 <= k < |v| && v[k] == FirstM3u8Src(v).value;
    }
    var w := page.sourceSrcs;
    if FirstM3u8Src(w).Some? {
      var k :| 0 <= k < |w| && w[k] == FirstM3u8Src(w).value;
    }
  }

  /** The scan in the page, written as the extractor's loops with early returns. */
  method ScanDom(page: PageSnapshot) returns (r: ScanResult)
    ensures r == Scan(page)
  {
    var videos := page.videoSrcs;
    for i := 0 to |videos|
      invariant FirstM3u8Src(videos) == FirstM3u8Src(videos[i..])
    {
      assert videos[i..][1..] == videos[i + 1..];
      if videos[i] != "" && Contains(videos[i], M3u8) {
        return ScanResult(Some(videos[i]), false);
      }
    }
    var sources := page.sourceSrcs;
    for i := 0 to |sources|
      invariant FirstM3u8Src(sources) == FirstM3u8Src(sources[i..])
    {
      assert sources[i..][1..] == sources[i + 1..];
      if sources[i] != "" && Contains(sources[i], M3u8) {
        return ScanResult(Some(sources[i]), false);
      }
    }
    var scripts := page.scripts;
    for i := 0 to |scripts|
      invariant FirstScriptHit(scripts) == FirstScriptHit(scripts[i..])
    {
      assert scripts[i..][1..] == scripts[i + 1..];
      var content := scripts[i];
      for j := 0 to |Patterns|
        invariant FirstPatternMatch(content, Patterns) == FirstPatternMatch(content, Patterns[j..])
      {
        assert Patterns[j..][1..] == Patterns[j + 1..];
        var m := PatternMatch(content, Patterns[j]);
        if m.Some? && m.value != "" {
          return ScanResult(m, false);
        }
      }
    }
    var file := page.jwPlaylistFile;
    if file.Some? && Contains(file.value, M3u8) {
      return ScanResult(file, false);
    }
    return ScanResult(None, true);
  }
}
