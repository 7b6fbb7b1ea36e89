/** The result line shared by all three generations: an URL piece, then the
    HTTP code, title and body pieces, each present when its option is set.
    Colours are tags, not terminal escape codes. */
module Format {
  import opened Common

  // ---------------------------------------------------------------------------
  // Body snippet: re.sub(r'[\s]+', " ", text).strip()[0:100]
  // ---------------------------------------------------------------------------

  /** The characters Python's `\s` and `str.strip()` treat as whitespace. */
  predicate IsSpace(c: char) {
    c == ' ' || c == '\t' || c == '\n' || c == '\r' || c == '\U{B}' || c == '\U{C}'
    || ('\U{1C}' <= c <= '\U{1F}') || c == '\U{85}' || c == '\U{A0}' || c == '\U{1680}'
    || ('\U{2000}' <= c <= '\U{200A}') || c == '\U{2028}' || c == '\U{2029}'
    || c == '\U{202F}' || c == '\U{205F}' || c == '\U{3000}'
  }

  const SnippetLength: nat := 100

  /** The text without a leading run of whitespace. */
  function DropSpaces(s: string): (r: string)
    ensures |r| <= |s| && r == s[|s| - |r|..]
    ensures r != [] ==> !IsSpace(r[0])
    ensures s != [] && IsSpace(s[0]) ==> |r| < |s|
    ensures forall i :: 0 <= i < |s| - |r| ==> IsSpace(s[i])
  {
    if s != [] && IsSpace(s[0]) then DropSpaces(s[1..]) else s
  }

  /** In a normalised text the only whitespace is a single ' ' between non-spaces. */
  ghost predicate Normalised(r: string) {
    && (forall i :: 0 <= i < |r| && IsSpace(r[i]) ==> r[i] == ' ')
    && (forall i, j :: 0 <= i < j < |r| && j == i + 1 ==> !(IsSpace(r[i]) && IsSpace(r[j])))
  }

  /** Every maximal run of whitespace replaced by one space. */
  function Collapse(s: string): (r: string)
    ensures Normalised(r)
    ensures s == [] <==> r == []
    ensures s != [] ==> (IsSpace(r[0]) <==> IsSpace(s[0]))
    ensures s != [] ==> (IsSpace(r[|r| - 1]) <==> IsSpace(s[|s| - 1]))
    ensures |r| <= |s|
    decreases |s|
  {
    if s == [] then []
    else if IsSpace(s[0]) then [' '] + Collapse(DropSpaces(s))
    else [s[0]] + Collapse(s[1..])
  }

  /** The substitution read one character at a time: a whitespace character
      becomes ' ' when it starts a run and is dropped when it continues one
      (`inRun`); every other character is kept. */
  function CollapseChars(s: string, inRun: bool): string
    decreases |s|
  {
    if s == [] then []
    else if IsSpace(s[0]) then (if inRun then [] else [' ']) + CollapseChars(s[1..], true)
    else [s[0]] + CollapseChars(s[1..], false)
  }

  /** Inside a run, the rest of the run writes nothing. */
  lemma {:induction false} CollapseCharsSkipsRun(s: string)
    ensures CollapseChars(s, true) == CollapseChars(DropSpaces(s), true)
    decreases |s|
  {
    if s != [] && IsSpace(s[0]) {
      CollapseCharsSkipsRun(s[1..]);
      assert [] + CollapseChars(s[1..], true) == CollapseChars(s[1..], true);
    }
  }

  /** Collapsing agrees with the character-by-character reading: each
      maximal whitespace run becomes exactly one ' ', and every other
      character stays, in order. */
  lemma {:induction false} CollapseByCharacter(s: string)
    ensures Collapse(s) == CollapseChars(s, false)
    decreases |s|
  {
    if s != [] {
      if IsSpace(s[0]) {
        var d := DropSpaces(s);
        CollapseByCharacter(d);
        CollapseCharsSkipsRun(s[1..]);
        assert DropSpaces(s[1..]) == d;
        assert CollapseChars(d, true) == CollapseChars(d, false);
      } else {
        CollapseByCharacter(s[1..]);
      }
    }
  }

  /** The non-whitespace characters of a text, in order. */
  function Visible(s: string): string {
    if s == [] then [] else (if IsSpace(s[0]) then [] else [s[0]]) + Visible(s[1..])
  }

  lemma {:induction false} VisibleOfSpaces(s: string, n: nat)
    requires n <= |s|
    requires forall i :: 0 <= i < n ==> IsSpace(s[i])
    ensures Visible(s) == Visible(s[n..])
  {
    if n > 0 {
      VisibleOfSpaces(s[1..], n - 1);
      assert s[1..][n - 1..] == s[n..];
    }
  }

  /** Collapsing whitespace keeps every visible character, in order. */
  lemma {:induction false} CollapseKeepsVisible(s: string)
    ensures Visible(Collapse(s)) == Visible(s)
    decreases |s|
  {
    if s == [] {
    } else if IsSpace(s[0]) {
      var d := DropSpaces(s);
      CollapseKeepsVisible(d);
      VisibleOfSpaces(s, |s| - |d|);
      assert Visible([' '] + Collapse(d)) == Visible(Collapse(d)) by {
        assert ([' '] + Collapse(d))[1..] == Collapse(d);
      }
    } else {
      CollapseKeepsVisible(s[1..]);
      assert ([s[0]] + Collapse(s[1..]))[1..] == Collapse(s[1..]);
    }
  }

  /** The index of the first non-whitespace character at or after `lo`, or |s|. */
  function StripStart(s: string, lo: nat): (a: nat)
    requires lo <= |s|
    ensures lo <= a <= |s|
    ensures forall i :: lo <= i < a ==> IsSpace(s[i])
    ensures a < |s| ==> !IsSpace(s[a])
    decreases |s| - lo
  {
    if lo < |s| && IsSpace(s[lo]) then StripStart(s, lo + 1) else lo
  }

  /** The end of `s[lo..hi]` once trailing whitespace is removed. */
  function StripEnd(s: string, lo: nat, hi: nat): (b: nat)
    requires lo <= hi <= |s|
    ensures lo <= b <= hi
    ensures forall i :: b <= i < hi ==> IsSpace(s[i])
    ensures b > lo ==> !IsSpace(s[b - 1])
  {
    if hi > lo && IsSpace(s[hi - 1]) then StripEnd(s, lo, hi - 1) else hi
  }

  /** `str.strip()`: whitespace removed from both ends. */
  function Strip(s: string): (r: string)
    ensures |r| <= |s|
    ensures r != [] ==> !IsSpace(r[0]) && !IsSpace(r[|r| - 1])
    ensures (forall i :: 0 <= i < |s| ==> !IsSpace(s[i])) ==> r == s
  {
    var a := StripStart(s, 0);
    s[a..StripEnd(s, a, |s|)]
  }

  /** What `strip` leaves is a slice with no whitespace at either end, and
      everything it cuts off is whitespace. */
  lemma StripSlice(s: string) returns (a: nat, b: nat)
    ensures a <= b <= |s| && Strip(s) == s[a..b]
    ensures forall i :: 0 <= i < a || b <= i < |s| ==> IsSpace(s[i])
    ensures a < b ==> !IsSpace(s[a]) && !IsSpace(s[b - 1])
  {
    a := StripStart(s, 0);
    b := StripEnd(s, a, |s|);
  }

  lemma NormalisedSlice(s: string, i: int, j: int)
    requires Normalised(s) && 0 <= i <= j <= |s|
    ensures Normalised(s[i..j])
  {
    var t := s[i..j];
    forall k | 0 <= k < |t|
      ensures t[k] == s[i + k]
    {
    }
  }

  /** The body snippet of a result line. */
  function Snippet(text: string): (r: string)
    ensures |r| <= SnippetLength && |r| <= |text|
    ensures r != [] ==> !IsSpace(r[0])
  {
    var t := Strip(Collapse(text));
    if |t| <= SnippetLength then t else t[..SnippetLength]
  }

  /** The snippet is the first 100 characters of the stripped and collapsed
      text (all of it when that fits), starts with no whitespace, and keeps
      only single ' ' between visible characters. */
  lemma SnippetShape(text: string)
    ensures var r := Snippet(text);
      var t := Strip(Collapse(text));
      && |r| == (if |t| <= SnippetLength then |t| else SnippetLength)
      && r <= t
      && (|Strip(Collapse(text))| <= SnippetLength ==> r == Strip(Collapse(text)))
      && (r != [] ==> !IsSpace(r[0]))
      && Normalised(r)
  {
    var c := Collapse(text);
    var t := Strip(c);
    var i, j := StripSlice(c);
    NormalisedSlice(c, i, j);
    NormalisedSlice(t, 0, if |t| <= SnippetLength then |t| else SnippetLength);
    assert t[0..|t|] == t;
  }

  // ---------------------------------------------------------------------------
  // HTTP code colour bands (Formatter._code / Logger.f_code)
  // ---------------------------------------------------------------------------

  datatype Color = Green | Yellow | Red | White

  function CodeColor(code: int): (c: Color)
    ensures c == White <==> code < 200 || 600 <= code
    ensures c == Red ==> 400 <= code < 600
  {
    if 200 <= code < 300 then Green
    else if 300 <= code < 400 then Yellow
    else if 400 <= code < 600 then Red
    else White
  }

  /** The colour follows the HTTP status class (the hundreds digit): 2xx green,
      3xx yellow, 4xx and 5xx red, anything else the default white. */
  lemma CodeColorByClass(code: int)
    ensures CodeColor(code) == Green <==> code / 100 == 2
    ensures CodeColor(code) == Yellow <==> code / 100 == 3
    ensures CodeColor(code) == Red <==> code / 100 == 4 || code / 100 == 5
    ensures CodeColor(code) == White <==> !(2 <= code / 100 <= 5)
  {
    var h := code / 100;
    assert 100 * h <= code < 100 * h + 100;
    if h < 2 {
      assert code < 200;
    } else if h > 5 {
      assert code >= 600;
    }
  }

  // ---------------------------------------------------------------------------
  // Result pieces and lines
  // ---------------------------------------------------------------------------

  /** The dictionary handed to the formatter: 'url' and 'title' always, 'code'
      and 'body' only when the result was enriched by a live fetch. The body
      is the text already extracted from the page. */
  datatype Pieces = Pieces(url: string, title: string, code: Option<int>, body: Option<string>)

  datatype Field = UrlField | CodeField | TitleField | BodyField

  /** One bracketed, coloured part of a result line. */
  datatype Piece =
    | UrlPiece(url: string)
    | CodePiece(code: int, color: Color)
    | TitlePiece(title: string)
    | BodyPiece(text: string)
  {
    function Field(): Field {
      match this
      case UrlPiece(_) => UrlField
      case CodePiece(_, _) => CodeField
      case TitlePiece(_) => TitleField
      case BodyPiece(_) => BodyField
    }
  }

  function Rank(f: Field): nat {
    match f
    case UrlField => 0
    case CodeField => 1
    case TitleField => 2
    case BodyField => 3
  }

  /** "[URL] " in the two newer versions, "[INFO] " in the oldest one. */
  datatype Prefix = UrlTag | InfoTag

  datatype Line = Line(prefix: Prefix, pieces: seq<Piece>)

  /** The pieces the formatter joins, or the key it fails to find (KeyError). */
  function FormatPieces(code: bool, title: bool, body: bool, p: Pieces): (r: Result<seq<Piece>, Field>)
    ensures r.Ok? ==> r.value != [] && r.value[0] == UrlPiece(p.url)
    ensures r.Ok? ==> |r.value| == 1 + (if code then 1 else 0) + (if title then 1 else 0) + (if body then 1 else 0)
    ensures r.Err? ==> r.error == CodeField || r.error == BodyField
  {
    if code && p.code.None? then Err(CodeField)
    else if body && p.body.None? then Err(BodyField)
    else
      var url := [UrlPiece(p.url)];
      var withCode := if code then url + [CodePiece(p.code.value, CodeColor(p.code.value))] else url;
      var withTitle := if title then withCode + [TitlePiece(p.title)] else withCode;
      Ok(if body then withTitle + [BodyPiece(Snippet(p.body.value))] else withTitle)
  }

  /** The list the formatter builds by appending, one piece per enabled option. */
  method BuildPieces(code: bool, title: bool, body: bool, p: Pieces) returns (r: Result<seq<Piece>, Field>)
    ensures r == FormatPieces(code, title, body, p)
  {
    var output := [UrlPiece(p.url)];
    if code {
      if p.code.None? {
        return Err(CodeField);
      }
      output := output + [CodePiece(p.code.value, CodeColor(p.code.value))];
    }
    if title {
      output := output + [TitlePiece(p.title)];
    }
    if body {
      if p.body.None? {
        return Err(BodyField);
      }
      output := output + [BodyPiece(Snippet(p.body.value))];
    }
    return Ok(output);
  }

  /** The line assembled from a URL piece and the enabled optional pieces. */
  function Assemble(u: Piece, cp: Piece, tp: Piece, bp: Piece, code: bool, title: bool, body: bool): seq<Piece> {
    [u] + (if code then [cp] else []) + (if title then [tp] else []) + (if body then [bp] else [])
  }

  /** `ps` starts with the URL piece `u` and keeps the fixed field order URL,
      code, title, body; each optional field appears exactly when its flag is
      set, and then as the given piece. */
  ghost predicate LineShape(ps: seq<Piece>, u: Piece, cp: Piece, tp: Piece, bp: Piece, code: bool, title: bool, body: bool) {
    && |ps| > 0 && ps[0] == u
    && (forall i, j :: 0 <= i < j < |ps| ==> Rank(ps[i].Field()) < Rank(ps[j].Field()))
    && (forall i :: 0 < i < |ps| ==> !ps[i].UrlPiece?)
    && ((exists i :: 0 <= i < |ps| && ps[i].CodePiece?) <==> code)
    && ((exists i :: 0 <= i < |ps| && ps[i].TitlePiece?) <==> title)
    && ((exists i :: 0 <= i < |ps| && ps[i].BodyPiece?) <==> body)
    && (forall i :: 0 <= i < |ps| && ps[i].CodePiece? ==> ps[i] == cp)
    && (forall i :: 0 <= i < |ps| && ps[i].TitlePiece? ==> ps[i] == tp)
    && (forall i :: 0 <= i < |ps| && ps[i].BodyPiece? ==> ps[i] == bp)
  }

  /** The assembled pieces keep the field order and carry the given values. */
  lemma AssembleOrder(u: Piece, cp: Piece, tp: Piece, bp: Piece, code: bool, title: bool, body: bool)
    requires u.UrlPiece? && cp.CodePiece? && tp.TitlePiece? && bp.BodyPiece?
    ensures var ps := Assemble(u, cp, tp, bp, code, title, body);
      && |ps| > 0 && ps[0] == u
      && (forall i, j :: 0 <= i < j < |ps| ==> Rank(ps[i].Field()) < Rank(ps[j].Field()))
      && (forall i :: 0 < i < |ps| ==> !ps[i].UrlPiece?)
      && (forall i :: 0 <= i < |ps| && ps[i].CodePiece? ==> ps[i] == cp)
      && (forall i :: 0 <= i < |ps| && ps[i].TitlePiece? ==> ps[i] == tp)
      && (forall i :: 0 <= i < |ps| && ps[i].BodyPiece? ==> ps[i] == bp)
  {
    var ps := Assemble(u, cp, tp, bp, code, title, body);
    var c := if code then [cp] else [];
    var t := if title then [tp] else [];
    var b := if body then [bp] else [];
    assert ps == [u] + c + t + b;
    forall i | 0 <= i < |ps|
      ensures ps[i] == (if i == 0 then u else if i < 1 + |c| then cp else if i < 1 + |c| + |t| then tp else bp)
    {
    }
  }

  /** An optional piece is in the assembled line exactly when its flag is set. */
  lemma AssemblePresence(u: Piece, cp: Piece, tp: Piece, bp: Piece, code: bool, title: bool, body: bool)
    requires u.UrlPiece? && cp.CodePiece? && tp.TitlePiece? && bp.BodyPiece?
    ensures var ps := Assemble(u, cp, tp, bp, code, title, body);
      && ((exists i :: 0 <= i < |ps| && ps[i].CodePiece?) <==> code)
      && ((exists i :: 0 <= i < |ps| && ps[i].TitlePiece?) <==> title)
      && ((exists i :: 0 <= i < |ps| && ps[i].BodyPiece?) <==> body)
  {
    var ps := Assemble(u, cp, tp, bp, code, title, body);
    var c := if code then [cp] else [];
    var t := if title then [tp] else [];
    var b := if body then [bp] else [];
    assert ps == [u] + c + t + b;
    assert forall i :: 0 <= i < |ps| ==> ps[i] == (if i == 0 then u else if i < 1 + |c| then cp else if i < 1 + |c| + |t| then tp else bp);
    if code { assert ps[1].CodePiece?; }
    if title { assert ps[1 + |c|].TitlePiece?; }
    if body { assert ps[1 + |c| + |t|].BodyPiece?; }
  }

  lemma AssembleShape(u: Piece, cp: Piece, tp: Piece, bp: Piece, code: bool, title: bool, body: bool)
    requires u.UrlPiece? && cp.CodePiece? && tp.TitlePiece? && bp.BodyPiece?
    ensures LineShape(Assemble(u, cp, tp, bp, code, title, body), u, cp, tp, bp, code, title, body)
  {
    AssembleOrder(u, cp, tp, bp, code, title, body);
    AssemblePresence(u, cp, tp, bp, code, title, body);
  }

  /** The code and body a format uses; unused when the option is off. */
  function CodeOf(p: Pieces): int {
    if p.code.Some? then p.code.value else 0
  }

  function BodyOf(p: Pieces): string {
    if p.body.Some? then p.body.value else ""
  }

  /** Formatting fails exactly when an enabled code or body piece is missing
      (Python's KeyError), and names the first one in line order. */
  lemma FormatFailure(code: bool, title: bool, body: bool, p: Pieces)
    ensures var r := FormatPieces(code, title, body, p);
      && (r.Err? <==> (code && p.code.None?) || (body && p.body.None?))
      && (r.Err? ==> r.error == if code && p.code.None? then CodeField else BodyField)
  {
  }

  /** A successful format is the assembly of its URL, title and, where
      their options are set, its code and body pieces. */
  lemma FormatAssembles(code: bool, title: bool, body: bool, p: Pieces, cp: Piece, bp: Piece)
    requires FormatPieces(code, title, body, p).Ok?
    requires code ==> cp == CodePiece(p.code.value, CodeColor(p.code.value))
    requires body ==> bp == BodyPiece(Snippet(p.body.value))
    ensures FormatPieces(code, title, body, p).value == Assemble(UrlPiece(p.url), cp, TitlePiece(p.title), bp, code, title, body)
  {
    var withCode := [UrlPiece(p.url)] + (if code then [cp] else []);
    assert withCode == if code then [UrlPiece(p.url)] + [cp] else [UrlPiece(p.url)];
    var withTitle := withCode + (if title then [TitlePiece(p.title)] else []);
    assert withTitle == if title then withCode + [TitlePiece(p.title)] else withCode;
    assert withTitle + (if body then [bp] else []) == if body then withTitle + [bp] else withTitle;
  }

  /** A successful format starts with the URL and keeps the fixed field order
      URL, code, title, body; each optional field appears exactly when its
      option is set, and every piece carries the input's value: the code with
      its colour band, the title as is, the body as its snippet. */
  lemma FormatShape(code: bool, title: bool, body: bool, p: Pieces)
    requires FormatPieces(code, title, body, p).Ok?
    ensures LineShape(FormatPieces(code, title, body, p).value, UrlPiece(p.url),
                      CodePiece(CodeOf(p), CodeColor(CodeOf(p))), TitlePiece(p.title),
                      BodyPiece(Snippet(BodyOf(p))), code, title, body)
  {
    var u, cp, tp, bp := UrlPiece(p.url), CodePiece(CodeOf(p), CodeColor(CodeOf(p))),
                         TitlePiece(p.title), BodyPiece(Snippet(BodyOf(p)));
    FormatAssembles(code, title, body, p, cp, bp);
    AssembleShape(u, cp, tp, bp, code, title, body);
  }

  /** The pieces handed to the line builder: link and title, plus the fetched
      status and page text when the formatter is extended. */
  function PiecesFor(item: Item, extended: bool, fetch: Fetch): (p: Pieces)
    ensures p.url == item.link && p.title == item.title
    ensures p.code.Some? == extended && p.body.Some? == extended
    ensures extended ==> p.code == Some(fetch(item.link).0) && p.body == Some(fetch(item.link).1)
  {
    if extended then
      var (status, text) := fetch(item.link);
      Pieces(item.link, item.title, Some(status), Some(text))
    else Pieces(item.link, item.title, None, None)
  }

  /** The line `Formatter.result` ("[URL] ") or `Logger.log_url`
      ("[INFO] ") writes for the pieces, or the key it could not find. */
  function TaggedLine(prefix: Prefix, options: Options, p: Pieces): (r: Result<Line, Field>)
    ensures r.Ok? ==> r.value.prefix == prefix && r.value.pieces != [] && r.value.pieces[0] == UrlPiece(p.url)
    ensures r.Err? <==> (options.code && p.code.None?) || (options.body && p.body.None?)
  {
    match FormatPieces(options.code, options.title, options.body, p)
    case Ok(pieces) => Ok(Line(prefix, pieces))
    case Err(f) => Err(f)
  }

  /** The line builder as written: the pieces list built by appending, then
      the tag. */
  method FormatLine(prefix: Prefix, options: Options, p: Pieces) returns (line: Result<Line, Field>)
    ensures line == TaggedLine(prefix, options, p)
  {
    var built := BuildPieces(options.code, options.title, options.body, p);
    if built.Err? {
      return Err(built.error);
    }
    return Ok(Line(prefix, built.value));
  }
}
