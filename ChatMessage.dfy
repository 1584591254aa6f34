/** The chat bubble's text helpers: `parseResponse`, which looks for a JSON answer in the
    assistant's text (a `json` code fence first, then a bare object), and `renderTextResponse`,
    which splits plain text into non-blank lines and classifies each as a bullet, a numbered item
    or a paragraph. `JSON.parse` is a function from text to an optional value (`None` when it
    throws). */
module ChatMessage {
  import opened JsCore
  import Json
  import AiService

  // ---------------------------------------------------------------------------------------------
  // parseResponse

  const Fence := "```json"
  const FenceEnd := "```"

  /** The index of the first character at or after `i` that is not white space (or `|s|`). */
  function SkipSpace(s: string, i: nat): (j: nat)
    requires i <= |s|
    ensures i <= j <= |s|
    ensures forall k :: i <= k < j ==> IsJsSpace(s[k])
    ensures j == |s| || !IsJsSpace(s[j])
    decreases |s| - i
  {
    if i < |s| && IsJsSpace(s[i]) then SkipSpace(s, i + 1) else i
  }

  /** Group 1 of `text.match(/```json\s*([\s\S]*?)\s*```/)`: the match starts at the first
      ```` ```json ````; the greedy `\s*` skips the white space after it; the lazy group then
      stops at the first ```` ``` ```` from there on, the white space before that fence going to
      the second `\s*`. With no closing fence there is no match at all (a later ```` ```json ````
      would not find one either). */
  function FenceCapture(text: string): Option<string> {
    match IndexFrom(text, Fence, 0)
    case None => None
    case Some(p) =>
      var q := SkipSpace(text, p + |Fence|);
      match IndexFrom(text, FenceEnd, q)
      case None => None
      case Some(f) => Some(TrimEnd(text[q..f]))
  }

  /** What the capture is: the text after the first opening fence and its white space, up to the
      first closing fence after that, without the white space before that fence; it has no
      white space at either end. */
  lemma FenceCaptureMeaning(text: string) returns (p: nat, q: nat, f: nat)
    requires FenceCapture(text).Some?
    ensures OccursAt(text, Fence, p) && forall k :: 0 <= k < p ==> !OccursAt(text, Fence, k)
    ensures p + |Fence| <= q <= f && OccursAt(text, FenceEnd, f)
    ensures forall k :: q <= k < f ==> !OccursAt(text, FenceEnd, k)
    ensures forall k :: p + |Fence| <= k < q ==> IsJsSpace(text[k])
    ensures var c := FenceCapture(text).value;
            q + |c| <= f && c == text[q..q + |c|] &&
            (forall k :: q + |c| <= k < f ==> IsJsSpace(text[k])) &&
            (c == [] || (!IsJsSpace(c[0]) && !IsJsSpace(c[|c| - 1])))
  {
    p := IndexFrom(text, Fence, 0).value;
    q := SkipSpace(text, p + |Fence|);
    f := IndexFrom(text, FenceEnd, q).value;
    TrimEndSlice(text, q, f);
  }

  /** Trimming the end of a slice keeps a prefix of the slice and drops only white space; a
      slice whose first character is not white space keeps it. */
  lemma TrimEndSlice(text: string, q: nat, f: nat)
    requires q <= f <= |text|
    requires q == |text| || !IsJsSpace(text[q])
    ensures var c := TrimEnd(text[q..f]);
            q + |c| <= f && c == text[q..q + |c|] &&
            (forall k :: q + |c| <= k < f ==> IsJsSpace(text[k])) &&
            (c == [] || (!IsJsSpace(c[0]) && !IsJsSpace(c[|c| - 1])))
  {
    var s := text[q..f];
    var c := TrimEnd(s);
    assert s[..|c|] == text[q..q + |c|];
    forall k | q + |c| <= k < f ensures IsJsSpace(text[k]) {
      assert text[k] == s[k - q];
    }
    if c != [] {
      assert c[0] == text[q];
    }
  }

  /** `parseResponse(text)` for a message from `sender`: `None` when the sender is not the
      assistant, when there is no fence and the trimmed text does not start with `{`, or when
      `JSON.parse` throws. */
  function ParseResponse<V>(sender: string, text: string, parse: string -> Option<V>)
    : (r: Option<V>)
  {
    if sender != "ai" then None
    else match FenceCapture(text)
      case Some(c) => parse(c)
      case None => if StartsWith(Trim(text), "{") then parse(text) else None
  }

  /** Only the assistant's messages are parsed; a fence wins over a bare object, and a text that
      is neither is never handed to `JSON.parse`. */
  lemma ParseResponseSources<V>(sender: string, text: string, parse: string -> Option<V>)
    ensures sender != "ai" ==> ParseResponse(sender, text, parse).None?
    ensures sender == "ai" && FenceCapture(text).Some? ==>
              ParseResponse(sender, text, parse) == parse(FenceCapture(text).value)
    ensures ParseResponse(sender, text, parse).Some? ==>
              sender == "ai" &&
              (FenceCapture(text).Some? || (|Trim(text)| > 0 && Trim(text)[0] == '{'))
  {
  }

  /** Wrapping a text in a `json` fence and extracting it again gives the text back, when the
      text has no backquote and no white space at either end. */
  lemma {:induction false} FenceRoundTrip(j: string)
    requires '`' !in j
    requires j == [] || (!IsJsSpace(j[0]) && !IsJsSpace(j[|j| - 1]))
    ensures FenceCapture("```json\n" + j + "\n```") == Some(j)
  {
    var text := "```json\n" + j + "\n```";
    assert text[0..7] == Fence;
    assert IndexFrom(text, Fence, 0) == Some(0);
    var q := SkipSpace(text, 7);
    var f := |j| + 9;
    assert text[7] == '\n';
    if j == [] {
      assert text[8] == '\n' && text[9] == '`';
      assert q == 9;
    } else {
      assert text[8] == j[0];
      assert q == 8;
    }
    ClosingFence(j, text, q);
    assert text[8..f] == j + "\n";
    if j == [] {
      assert text[q..f] == [];
    } else {
      assert TrimEnd(j + "\n") == TrimEnd(j);
      TrimEndFixed(j);
    }
  }

  /** In a fenced text with no backquote inside, the first closing fence from inside the body is
      the one after the body's line break. */
  lemma ClosingFence(j: string, text: string, q: nat)
    requires '`' !in j && text == "```json\n" + j + "\n```"
    requires 8 <= q <= |j| + 9
    ensures IndexFrom(text, FenceEnd, q) == Some(|j| + 9)
  {
    var f := |j| + 9;
    assert OccursAt(text, FenceEnd, f) by {
      assert text[f..f + 3] == "```";
    }
    forall k | q <= k < f ensures !OccursAt(text, FenceEnd, k) {
      if k < |j| + 8 {
        assert text[k] == j[k - 8];
        assert text[k..k + 3][0] == text[k];
      } else {
        assert text[k] == '\n';
        assert text[k..k + 3][0] == text[k];
      }
    }
  }

  /** The fallback answer of the suggestion generator parses as its own JSON object: the text
      handed to `JSON.parse` is exactly the serialised object, when the city and the weather
      description hold no backquote. */
  lemma FallbackAnswerParses<V>(w: AiService.WeatherSummary, theme: string,
                                parse: string -> Option<V>)
    requires '`' !in w.city && '`' !in w.description
    ensures ParseResponse("ai", AiService.FallbackResponse(w, theme), parse) ==
            parse(Json.Stringify(AiService.FallbackObject(w, theme)))
  {
    var o := AiService.FallbackObject(w, theme);
    AiService.FallbackFenceFree(w, theme);
    Json.ObjectBraces(o.members);
    FenceRoundTrip(Json.Stringify(o));
  }

  // ---------------------------------------------------------------------------------------------
  // renderTextResponse

  /** One rendered line: a bullet point (marker removed), a numbered item, or a paragraph. */
  datatype Line = Bullet(text: string) | Numbered(text: string) | Paragraph(text: string)

  predicate IsMarker(c: char) {
    c == '•' || c == '-' || c == '・'
  }

  /** `lines.filter(line => line.trim())`. */
  function NonBlank(lines: seq<string>): (r: seq<string>)
    ensures |r| <= |lines|
    ensures forall x :: x in r ==> Trim(x) != [] && x in lines
    ensures forall x :: x in lines && Trim(x) != [] ==> x in r
  {
    if lines == [] then []
    else
      var rest := NonBlank(lines[1..]);
      assert lines == [lines[0]] + lines[1..];
      if Trim(lines[0]) != [] then [lines[0]] + rest else rest
  }

  /** Filtering commutes with concatenation, so kept lines stay in their order. */
  lemma {:induction false} NonBlankAppend(a: seq<string>, b: seq<string>)
    ensures NonBlank(a + b) == NonBlank(a) + NonBlank(b)
    decreases |a|
  {
    if a == [] {
      assert a + b == b;
    } else {
      assert (a + b)[1..] == a[1..] + b;
      NonBlankAppend(a[1..], b);
    }
  }

  /** The number of leading ASCII digits. */
  function DigitRun(s: string): (n: nat)
    ensures n <= |s|
    ensures forall k :: 0 <= k < n ==> '0' <= s[k] <= '9'
    ensures n == |s| || !('0' <= s[n] <= '9')
  {
    if s != [] && '0' <= s[0] <= '9' then 1 + DigitRun(s[1..]) else 0
  }

  /** `/^\d+[.、)]\s/.test(t)`: digits, one of `.`, `、`, `)`, then white space. */
  predicate NumberedStart(t: string) {
    var n := DigitRun(t);
    0 < n && n + 1 < |t| && (t[n] == '.' || t[n] == '、' || t[n] == ')') && IsJsSpace(t[n + 1])
  }

  /** The `replace` of the bullet branch: a marker at the very start of the line, and the white
      space after it, are removed; a line that does not start with a marker is left alone. */
  function StripMarker(line: string): string {
    if line != [] && IsMarker(line[0]) then TrimStart(line[1..]) else line
  }

  /** How `renderTextResponse` classifies one kept line. The marker test looks at the trimmed
      line, but the marker is stripped from the line as it is. */
  function Classify(line: string): Line {
    var t := Trim(line);
    if t != [] && IsMarker(t[0]) then Bullet(StripMarker(line))
    else if NumberedStart(t) then Numbered(line)
    else Paragraph(line)
  }

  /** The classification the bullet test evidently intends: the marker stripped from the trimmed
      line. */
  function ClassifyIntended(line: string): Line {
    var t := Trim(line);
    if t != [] && IsMarker(t[0]) then Bullet(StripMarker(t))
    else if NumberedStart(t) then Numbered(line)
    else Paragraph(line)
  }

  /** `renderTextResponse(text)` as written: one entry per non-blank line, in order. */
  function RenderTextResponse(text: string): (r: seq<Line>)
    ensures |r| == |NonBlank(Split(text, '\n'))|
  {
    var lines := NonBlank(Split(text, '\n'));
    seq(|lines|, i requires 0 <= i < |lines| => Classify(lines[i]))
  }

  /** `renderTextResponse` with the marker stripped from the trimmed line. */
  function RenderTextResponseIntended(text: string): (r: seq<Line>)
    ensures |r| == |NonBlank(Split(text, '\n'))|
  {
    var lines := NonBlank(Split(text, '\n'));
    seq(|lines|, i requires 0 <= i < |lines| => ClassifyIntended(lines[i]))
  }

  /** A line with a marker after its indentation is a bullet, even when a numbered item follows
      the marker; only an unmarked line can be numbered; other lines are shown as they are. */
  lemma ClassifyOrder(line: string)
    ensures var t := Trim(line);
            (t != [] && IsMarker(t[0]) ==> Classify(line).Bullet?) &&
            (Classify(line).Numbered? <==> !(t != [] && IsMarker(t[0])) && NumberedStart(t)) &&
            (!Classify(line).Bullet? ==> Classify(line).text == line)
  {
  }

  /** Numbered items need white space after the punctuation: "1. Tokyo" is one, "1.Tokyo" and
      "1." are not. */
  lemma NumberedExamples(spaced: string, tight: string, bare: string)
    requires spaced == "1. Tokyo" && tight == "1.Tokyo" && bare == "1."
    ensures NumberedStart(spaced) && !NumberedStart(tight) && !NumberedStart(bare)
  {
    assert DigitRun(spaced) == 1 by {
      assert spaced[1..][0] == '.';
    }
    assert DigitRun(tight) == 1 by {
      assert tight[1..][0] == '.';
    }
    assert DigitRun(bare) == 1 by {
      assert bare[1..] == ".";
    }
  }

  lemma TrimIndented(line: string, word: string)
    requires line == " - " + word
    requires word != [] && !IsJsSpace(word[0]) && !IsJsSpace(word[|word| - 1])
    ensures Trim(line) == line[1..] && line[1..] == "- " + word
  {
    assert line[0] == ' ' && line[1] == '-';
    assert line[|line| - 1] == word[|word| - 1];
    TrimStartFixed(line[1..]);
    assert TrimStart(line) == line[1..];
    TrimEndFixed(line[1..]);
  }

  /** As written, an indented bullet keeps its marker: " - rain" is classified as a bullet and
      shown as " - rain", where "rain" is meant. */
  lemma IndentedBulletKeepsMarker(line: string, word: string)
    requires line == " - " + word
    requires word != [] && !IsJsSpace(word[0]) && !IsJsSpace(word[|word| - 1])
    ensures Classify(line) == Bullet(line)
    ensures ClassifyIntended(line) == Bullet(word)
  {
    TrimIndented(line, word);
    MarkerAfterIndent(line, word);
  }

  lemma MarkerAfterIndent(line: string, word: string)
    requires line == " - " + word
    requires word != [] && !IsJsSpace(word[0])
    requires Trim(line) == line[1..]
    ensures Trim(line)[0] == '-' && StripMarker(line) == line
    ensures StripMarker(Trim(line)) == word
  {
    var t := line[1..];
    assert line[0] == ' ' && t[0] == '-';
    assert t[1..] == [' '] + word;
    SpaceThenWord(word);
  }

  /** One space before a word that starts with no white space is exactly what `TrimStart` drops. */
  lemma SpaceThenWord(word: string)
    requires word != [] && !IsJsSpace(word[0])
    ensures TrimStart([' '] + word) == word
  {
    assert ([' '] + word)[1..] == word;
    TrimStartFixed(word);
  }

  /** With the intended classification the text of a bullet is its trimmed line after the
      marker and the white space following it, whatever the indentation. */
  lemma IntendedBulletText(line: string)
    requires ClassifyIntended(line).Bullet?
    ensures var t := Trim(line);
            t != [] && IsMarker(t[0]) && ClassifyIntended(line).text == TrimStart(t[1..]) &&
            (ClassifyIntended(line).text == [] || !IsJsSpace(ClassifyIntended(line).text[0]))
  {
  }
}
