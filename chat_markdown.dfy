/**
 * `simpleMarkdownToHtml`, the formatter of the chatbot's bot bubbles: escape
 * `&`, `<` and `>`, turn `**x**` into `<strong>x</strong>` (lazily, within one
 * line) and each newline into `<br />`.
 *
 * `MarkdownToHtml` runs the five passes in order, as the component does.
 * `Reference` is an independent one-pass description of the same output.
 * `MarkdownIsReference` proves them equal, and the safety and round-trip
 * properties are proved about `Reference`.
 */
module ChatMarkdown {
  import opened Wrappers
  import opened Strings

  // ---------------------------------------------------------------------------
  // The passes

  /** The characters a regular-expression `.` does not match. */
  predicate IsLineTerminator(c: char) {
    c == '\n' || c == '\r' || c == '\U{2028}' || c == '\U{2029}'
  }

  /** "**" starts at position `k` of `t`. */
  predicate StarsAt(t: string, k: int) {
    0 <= k && k + 2 <= |t| && t[k] == '*' && t[k + 1] == '*'
  }

  /** No line terminator among the first `j` characters of `u`. */
  predicate NoTerminatorBefore(u: string, j: int) {
    forall k :: 0 <= k < j && k < |u| ==> !IsLineTerminator(u[k])
  }

  /**
   * Where `(.*?)\*\*` closes in `u`, the text that follows an opening "**":
   * the first "**" with no line terminator before it, or None.
   */
  function CloseAt(u: string): (r: Option<nat>)
    ensures r.Some? ==> StarsAt(u, r.value) && NoTerminatorBefore(u, r.value)
                        && forall j :: 0 <= j < r.value ==> !StarsAt(u, j)
    ensures r.None? ==> forall j :: 0 <= j < |u| && NoTerminatorBefore(u, j) ==> !StarsAt(u, j)
  {
    if StarsAt(u, 0) then Some(0)
    else if u == [] || IsLineTerminator(u[0]) then None
    else
      var t := u[1..];
      assert forall j :: 0 <= j ==> (StarsAt(t, j) <==> StarsAt(u, j + 1));
      assert forall j :: 0 <= j ==> (NoTerminatorBefore(u, j + 1) <==> NoTerminatorBefore(t, j));
      match CloseAt(t)
      case None =>
        assert forall j :: 1 <= j < |u| && NoTerminatorBefore(u, j) ==> !StarsAt(u, j) by {
          forall j | 1 <= j < |u| && NoTerminatorBefore(u, j)
            ensures !StarsAt(u, j)
          {
            assert NoTerminatorBefore(t, j - 1);
          }
        }
        None
      case Some(q) =>
        assert forall j :: 1 <= j < q + 1 ==> !StarsAt(u, j) by {
          forall j | 1 <= j < q + 1
            ensures !StarsAt(u, j)
          {
            assert !StarsAt(t, j - 1);
          }
        }
        Some(q + 1)
  }

  /** An opening "**", the bold text and its closing "**", and what follows. */
  datatype Span = Span(group: string, rest: string)

  /** Whether `t` starts with bold text, and where it closes. */
  function BoldSplit(t: string): (o: Option<Span>)
    ensures o.Some? ==> t == "**" + o.value.group + "**" + o.value.rest
    ensures o.Some? ==> forall k :: 0 <= k < |o.value.group| ==> !IsLineTerminator(o.value.group[k])
    ensures o.None? <==> !StarsAt(t, 0) || CloseAt(t[2..]).None?
  {
    if StarsAt(t, 0) && CloseAt(t[2..]).Some? then
      var u := t[2..];
      var q := CloseAt(u).value;
      SplitAtClose(t, q);
      Some(Span(u[..q], u[q + 2..]))
    else None
  }

  /** Cutting `t` at its opening "**" and at a "**" after it with no line terminator before. */
  lemma SplitAtClose(t: string, q: nat)
    requires StarsAt(t, 0) && StarsAt(t[2..], q) && NoTerminatorBefore(t[2..], q)
    ensures t == "**" + t[2..][..q] + "**" + t[2..][q + 2..]
    ensures forall k :: 0 <= k < q ==> !IsLineTerminator(t[2..][..q][k])
  {
    var u := t[2..];
    var g, r := u[..q], u[q + 2..];
    assert u[q..q + 2] == "**";
    assert u == g + "**" + r;
    assert t[..2] == "**" && t == t[..2] + u;
    assert forall k :: 0 <= k < q ==> g[k] == u[k];
  }

  /**
   * The global replace of the lazy bold pattern by `<strong>$1</strong>`,
   * scanning from the left.
   */
  function Bold(t: string): string
    decreases |t|
  {
    if t == [] then []
    else match BoldSplit(t)
      case Some(Span(g, r)) => "<strong>" + g + "</strong>" + Bold(r)
      case None => [t[0]] + Bold(t[1..])
  }

  /** The escaping passes, `&` first. */
  function EscapeHtml(s: string): string {
    ReplaceChar(ReplaceChar(ReplaceChar(s, '&', "&amp;"), '<', "&lt;"), '>', "&gt;")
  }

  /** `simpleMarkdownToHtml(text)`. */
  function MarkdownToHtml(text: string): (r: string)
    ensures '\n' !in r
  {
    if text == "" then ""
    else ReplaceChar(Bold(EscapeHtml(text)), '\n', "<br />")
  }

  lemma MarkdownOfEmpty()
    ensures MarkdownToHtml("") == ""
  {
  }

  // ---------------------------------------------------------------------------
  // The one-pass reference

  /** The escape of one character. */
  function EscChar(c: char): string {
    if c == '&' then "&amp;" else if c == '<' then "&lt;" else if c == '>' then "&gt;" else [c]
  }

  function EscapeEach(s: string): string {
    if s == [] then [] else EscChar(s[0]) + EscapeEach(s[1..])
  }

  /** Reference rendering of one character outside bold text. */
  function HtmlChar(c: char): string {
    if c == '\n' then "<br />" else EscChar(c)
  }

  /**
   * Each "**x**" whose x is the shortest run without a line terminator becomes
   * a strong element around the escaped x; any other character is escaped and
   * a newline becomes a break.
   */
  function Reference(s: string): string
    decreases |s|
  {
    if s == [] then []
    else match BoldSplit(s)
      case Some(Span(g, r)) => "<strong>" + EscapeEach(g) + "</strong>" + Reference(r)
      case None => HtmlChar(s[0]) + Reference(s[1..])
  }

  /** `Reference` before the newline pass. */
  function BoldRef(s: string): string
    decreases |s|
  {
    if s == [] then []
    else match BoldSplit(s)
      case Some(Span(g, r)) => "<strong>" + EscapeEach(g) + "</strong>" + BoldRef(r)
      case None => EscChar(s[0]) + BoldRef(s[1..])
  }

  // ---------------------------------------------------------------------------
  // The passes compute the reference

  lemma {:induction false} EscapeEachAppend(a: string, b: string)
    ensures EscapeEach(a + b) == EscapeEach(a) + EscapeEach(b)
  {
    if a == [] {
      assert a + b == b;
    } else {
      assert (a + b)[0] == a[0];
      assert (a + b)[1..] == a[1..] + b;
      EscapeEachAppend(a[1..], b);
    }
  }

  lemma EscapeHtmlAppend(a: string, b: string)
    ensures EscapeHtml(a + b) == EscapeHtml(a) + EscapeHtml(b)
  {
    var a1, b1 := ReplaceChar(a, '&', "&amp;"), ReplaceChar(b, '&', "&amp;");
    ReplaceCharAppend(a, b, '&', "&amp;");
    var a2, b2 := ReplaceChar(a1, '<', "&lt;"), ReplaceChar(b1, '<', "&lt;");
    ReplaceCharAppend(a1, b1, '<', "&lt;");
    ReplaceCharAppend(a2, b2, '>', "&gt;");
  }

  lemma EscapeHtmlChar(c: char)
    ensures EscapeHtml([c]) == EscChar(c)
  {
    assert [c][1..] == [];
    var r1 := ReplaceChar([c], '&', "&amp;");
    assert r1 == (if c == '&' then "&amp;" else [c]) + ReplaceChar([], '&', "&amp;");
    if c == '&' {
      ReplaceCharAbsent(r1, '<', "&lt;");
      ReplaceCharAbsent(r1, '>', "&gt;");
    } else {
      var r2 := ReplaceChar(r1, '<', "&lt;");
      assert r2 == (if c == '<' then "&lt;" else [c]) + ReplaceChar([], '<', "&lt;");
      if c == '<' {
        ReplaceCharAbsent(r2, '>', "&gt;");
      } else {
        var r3 := ReplaceChar(r2, '>', "&gt;");
        assert r3 == (if c == '>' then "&gt;" else [c]) + ReplaceChar([], '>', "&gt;");
      }
    }
  }

  /** The three global replaces escape every character independently. */
  lemma {:induction false} EscapeHtmlIsEach(s: string)
    ensures EscapeHtml(s) == EscapeEach(s)
  {
    if s != [] {
      assert s == [s[0]] + s[1..];
      EscapeHtmlAppend([s[0]], s[1..]);
      EscapeHtmlChar(s[0]);
      EscapeHtmlIsEach(s[1..]);
    }
  }

  function ShiftBy(o: Option<nat>, n: nat): Option<nat> {
    match o
    case None => None
    case Some(q) => Some(q + n)
  }

  lemma CloseAtCons(c: char, v: string)
    requires !IsLineTerminator(c) && !StarsAt([c] + v, 0)
    ensures CloseAt([c] + v) == ShiftBy(CloseAt(v), 1)
  {
    assert ([c] + v)[1..] == v;
  }

  /** A prefix without stars and line terminators only moves the closing position. */
  lemma {:induction false} CloseAtEntity(w: string, v: string)
    requires '*' !in w && forall k :: 0 <= k < |w| ==> !IsLineTerminator(w[k])
    ensures CloseAt(w + v) == ShiftBy(CloseAt(v), |w|)
  {
    if w == [] {
      assert w + v == v;
    } else {
      assert w + v == [w[0]] + (w[1..] + v);
      CloseAtEntity(w[1..], v);
      CloseAtCons(w[0], w[1..] + v);
    }
  }

  lemma EscapeEachHead(u: string)
    requires |u| >= 2
    ensures EscapeEach(u[1..]) == EscChar(u[1]) + EscapeEach(u[2..])
  {
    assert u[1..][1..] == u[2..];
  }

  /** Escaping `u` keeps where bold text closes, measured in escaped characters. */
  ghost predicate EscapeKeepsClose(u: string) {
    CloseAt(EscapeEach(u)) == EscapedClose(u)
  }

  /** Where bold text closes in `u`, counted in characters of the escaped text. */
  function EscapedClose(u: string): Option<nat> {
    match CloseAt(u)
    case None => None
    case Some(q) => Some(|EscapeEach(u[..q])|)
  }

  /** After a plain first character, escaping the tail cannot complete a "**" with it. */
  lemma PlainHeadNoStars(u: string)
    requires u != [] && !StarsAt(u, 0) && EscChar(u[0]) == [u[0]]
    ensures !StarsAt([u[0]] + EscapeEach(u[1..]), 0)
  {
    if |u| >= 2 {
      EscapeEachHead(u);
      assert ([u[0]] + EscapeEach(u[1..]))[1] == EscChar(u[1])[0];
    }
  }

  /** A first character that neither opens "**" nor ends the line moves the close by one. */
  lemma CloseAtOfTail(u: string)
    requires u != [] && !StarsAt(u, 0) && !IsLineTerminator(u[0])
    ensures CloseAt(u) == ShiftBy(CloseAt(u[1..]), 1)
  {
    assert u == [u[0]] + u[1..];
    CloseAtCons(u[0], u[1..]);
  }

  /** The same after escaping: the close moves by the length of the escaped first character. */
  lemma CloseAtOfEscapedTail(u: string)
    requires u != [] && !StarsAt(u, 0) && !IsLineTerminator(u[0])
    ensures CloseAt(EscapeEach(u)) == ShiftBy(CloseAt(EscapeEach(u[1..])), |EscChar(u[0])|)
  {
    var c, w, v := u[0], EscChar(u[0]), EscapeEach(u[1..]);
    assert EscapeEach(u) == w + v;
    if c == '&' || c == '<' || c == '>' {
      CloseAtEntity(w, v);
    } else {
      PlainHeadNoStars(u);
      CloseAtCons(c, v);
    }
  }

  lemma EscapePrefixCons(u: string, q: nat)
    requires q < |u|
    ensures |EscapeEach(u[..q + 1])| == |EscChar(u[0])| + |EscapeEach(u[1..][..q])|
  {
    var p := u[..q + 1];
    assert p[0] == u[0] && p[1..] == u[1..][..q];
  }

  /** The expected close after escaping moves by the length of the escaped first character. */
  lemma EscapedCloseCons(u: string)
    requires u != [] && !StarsAt(u, 0) && !IsLineTerminator(u[0])
    ensures EscapedClose(u) == ShiftBy(EscapedClose(u[1..]), |EscChar(u[0])|)
  {
    CloseAtOfTail(u);
    match CloseAt(u[1..])
    case None =>
    case Some(q) => EscapePrefixCons(u, q);
  }

  /** One character that neither opens "**" nor ends the line passes the property on from the tail. */
  lemma CloseAtEscapeStep(u: string)
    requires u != [] && !StarsAt(u, 0) && !IsLineTerminator(u[0])
    requires EscapeKeepsClose(u[1..])
    ensures EscapeKeepsClose(u)
  {
    var w := |EscChar(u[0])|;
    assert EscapedClose(u) == ShiftBy(EscapedClose(u[1..]), w) by {
      EscapedCloseCons(u);
    }
    assert CloseAt(EscapeEach(u)) == ShiftBy(CloseAt(EscapeEach(u[1..])), w) by {
      CloseAtOfEscapedTail(u);
    }
  }

  /** Escaping keeps where bold text closes, measured in escaped characters. */
  lemma {:induction false} CloseAtEscape(u: string)
    ensures EscapeKeepsClose(u)
    decreases |u|
  {
    if StarsAt(u, 0) {
      assert u == u[..2] + u[2..] && u[..2] == "**";
      EscapeEachAppend(u[..2], u[2..]);
      assert u[..0] == [];
    } else if u == [] {
    } else if IsLineTerminator(u[0]) {
      assert EscapeEach(u)[0] == u[0];
    } else {
      CloseAtEscape(u[1..]);
      CloseAtEscapeStep(u);
    }
  }

  /** A star-free prefix passes through the bold pass unchanged. */
  lemma {:induction false} BoldNoStarPrefix(w: string, v: string)
    requires '*' !in w
    ensures Bold(w + v) == w + Bold(v)
  {
    if w == [] {
      assert w + v == v;
    } else {
      var t := w + v;
      assert t[0] == w[0] && t[1..] == w[1..] + v;
      assert BoldSplit(t) == None;
      assert Bold(t) == [w[0]] + Bold(w[1..] + v);
      BoldNoStarPrefix(w[1..], v);
      assert w == [w[0]] + w[1..];
    }
  }

  lemma EscapeEachStars(x: string)
    ensures EscapeEach("**" + x) == "**" + EscapeEach(x)
  {
    EscapeEachAppend("**", x);
    assert "**"[1..] == "*";
  }

  lemma BoldSplitOfStars(x: string)
    ensures BoldSplit("**" + x) == match CloseAt(x)
                                   case None => None
                                   case Some(q) => Some(Span(x[..q], x[q + 2..]))
  {
    var t := "**" + x;
    assert StarsAt(t, 0) && t[2..] == x;
    match CloseAt(x)
    case None =>
    case Some(q) =>
  }

  /** Escaping the text around a "**" at `q`. */
  lemma EscapeAroundStars(u: string, q: nat)
    requires StarsAt(u, q)
    ensures var eu, ea := EscapeEach(u), EscapeEach(u[..q]);
      |ea| + 2 <= |eu| && eu[..|ea|] == ea && StarsAt(eu, |ea|) && eu[|ea| + 2..] == EscapeEach(u[q + 2..])
  {
    var a, b := u[..q], u[q + 2..];
    var ea, eb := EscapeEach(a), EscapeEach(b);
    var eu := EscapeEach(u);
    assert eu == ea + ("**" + eb) by {
      assert u == a + ("**" + b) by {
        assert u[q..q + 2] == "**";
      }
      EscapeEachAppend(a, "**" + b);
      EscapeEachStars(b);
    }
    assert eu[..|ea|] == ea;
    assert eu[|ea| + 2..] == eb;
  }

  lemma BoldSplitEscapeStars(s: string)
    requires StarsAt(s, 0)
    ensures BoldSplit(EscapeEach(s)) == match BoldSplit(s)
                                        case None => None
                                        case Some(Span(g, r)) => Some(Span(EscapeEach(g), EscapeEach(r)))
  {
    var u := s[2..];
    var eu := EscapeEach(u);
    assert s == "**" + u;
    EscapeEachStars(u);
    assert EscapeEach(s) == "**" + eu;
    BoldSplitOfStars(u);
    BoldSplitOfStars(eu);
    CloseAtEscape(u);
    match CloseAt(u)
    case None =>
      assert BoldSplit(s) == None;
    case Some(q) =>
      assert BoldSplit(s) == Some(Span(u[..q], u[q + 2..]));
      EscapeAroundStars(u, q);
  }

  /** Escaping keeps where bold text starts and closes; the parts are escaped. */
  lemma BoldSplitEscape(s: string)
    ensures BoldSplit(EscapeEach(s)) == match BoldSplit(s)
                                        case None => None
                                        case Some(Span(g, r)) => Some(Span(EscapeEach(g), EscapeEach(r)))
  {
    if StarsAt(s, 0) {
      BoldSplitEscapeStars(s);
    } else if s != [] {
      EscapeKeepsNoStars(s);
    }
  }

  /** Text that does not open with "**" does not after escaping either. */
  lemma EscapeKeepsNoStars(s: string)
    requires s != [] && !StarsAt(s, 0)
    ensures !StarsAt(EscapeEach(s), 0)
  {
    var e := EscapeEach(s);
    assert e == EscChar(s[0]) + EscapeEach(s[1..]);
    if s[0] == '*' && |s| >= 2 {
      EscapeEachHead(s);
      assert e[1] == EscChar(s[1])[0];
    }
  }

  /** The bold pass over escaped text is `BoldRef` of the raw text. */
  lemma {:induction false} BoldOfEscape(s: string)
    ensures Bold(EscapeEach(s)) == BoldRef(s)
    decreases |s|
  {
    if s != [] {
      BoldSplitEscape(s);
      match BoldSplit(s)
      case Some(Span(g, r)) =>
        BoldOfEscape(r);
      case None =>
        var c, v := s[0], EscapeEach(s[1..]);
        BoldOfEscape(s[1..]);
        if c == '&' || c == '<' || c == '>' {
          BoldNoStarPrefix(EscChar(c), v);
        } else {
          assert ([c] + v)[1..] == v;
        }
    }
  }

  lemma {:induction false} EscapeEachNoNewline(g: string)
    requires forall k :: 0 <= k < |g| ==> !IsLineTerminator(g[k])
    ensures '\n' !in EscapeEach(g)
  {
    if g != [] {
      EscapeEachNoNewline(g[1..]);
    }
  }

  /** A strong element has no line feed, so the newline pass distributes over it. */
  lemma NewlinesOfStrong(g: string, tail: string)
    requires forall k :: 0 <= k < |g| ==> !IsLineTerminator(g[k])
    ensures var strong := "<strong>" + EscapeEach(g) + "</strong>";
      ReplaceChar(strong + tail, '\n', "<br />") == strong + ReplaceChar(tail, '\n', "<br />")
  {
    EscapeEachNoNewline(g);
    var strong := "<strong>" + EscapeEach(g) + "</strong>";
    ReplaceCharAppend(strong, tail, '\n', "<br />");
    ReplaceCharAbsent(strong, '\n', "<br />");
  }

  /** The newline pass turns an escaped character into its reference rendering. */
  lemma NewlinesOfChar(c: char, tail: string)
    ensures ReplaceChar(EscChar(c) + tail, '\n', "<br />") == HtmlChar(c) + ReplaceChar(tail, '\n', "<br />")
  {
    ReplaceCharAppend(EscChar(c), tail, '\n', "<br />");
    if c != '\n' {
      ReplaceCharAbsent(EscChar(c), '\n', "<br />");
    } else {
      assert EscChar(c) == [c] && [c][1..] == [];
    }
  }

  /** The newline pass over `BoldRef` is `Reference`. */
  lemma {:induction false} NewlinesOfBoldRef(s: string)
    ensures ReplaceChar(BoldRef(s), '\n', "<br />") == Reference(s)
    decreases |s|
  {
    if s == [] {
    } else if BoldSplit(s).Some? {
      var g, rest := BoldSplit(s).value.group, BoldSplit(s).value.rest;
      NewlinesOfStrong(g, BoldRef(rest));
      NewlinesOfBoldRef(rest);
    } else {
      NewlinesOfChar(s[0], BoldRef(s[1..]));
      NewlinesOfBoldRef(s[1..]);
    }
  }

  /** The five passes compute the one-pass reference. */
  lemma MarkdownIsReference(text: string)
    ensures MarkdownToHtml(text) == Reference(text)
  {
    if text != "" {
      EscapeHtmlIsEach(text);
      BoldOfEscape(text);
      NewlinesOfBoldRef(text);
    }
  }

  // ---------------------------------------------------------------------------
  // Every angle bracket of the output belongs to an inserted tag

  const STRONG_OPEN: string := "<strong>"
  const STRONG_CLOSE: string := "</strong>"
  const BREAK: string := "<br />"

  /** An inserted tag starts at `i`. */
  predicate TagStartsAt(r: string, i: int) {
    OccursAt(r, STRONG_OPEN, i) || OccursAt(r, STRONG_CLOSE, i) || OccursAt(r, BREAK, i)
  }

  /** An inserted tag ends at `i`. */
  predicate TagEndsAt(r: string, i: int) {
    OccursAt(r, STRONG_OPEN, i - 7) || OccursAt(r, STRONG_CLOSE, i - 8) || OccursAt(r, BREAK, i - 5)
  }

  /** Every `<` opens and every `>` closes an inserted tag. */
  predicate AnglesInTags(r: string) {
    forall i :: 0 <= i < |r| ==> (r[i] == '<' ==> TagStartsAt(r, i)) && (r[i] == '>' ==> TagEndsAt(r, i))
  }

  lemma OccursAtAppend(a: string, b: string, t: string, j: int)
    ensures OccursAt(a, t, j) ==> OccursAt(a + b, t, j)
    ensures OccursAt(b, t, j) ==> OccursAt(a + b, t, |a| + j)
  {
    if OccursAt(a, t, j) {
      assert (a + b)[j..j + |t|] == a[j..j + |t|];
    }
    if OccursAt(b, t, j) {
      assert (a + b)[|a| + j..|a| + j + |t|] == b[j..j + |t|];
    }
  }

  lemma AnglesAppend(a: string, b: string)
    requires AnglesInTags(a) && AnglesInTags(b)
    ensures AnglesInTags(a + b)
  {
    var r := a + b;
    forall i | 0 <= i < |r|
      ensures (r[i] == '<' ==> TagStartsAt(r, i)) && (r[i] == '>' ==> TagEndsAt(r, i))
    {
      if i < |a| {
        OccursAtAppend(a, b, STRONG_OPEN, i);
        OccursAtAppend(a, b, STRONG_CLOSE, i);
        OccursAtAppend(a, b, BREAK, i);
        OccursAtAppend(a, b, STRONG_OPEN, i - 7);
        OccursAtAppend(a, b, STRONG_CLOSE, i - 8);
        OccursAtAppend(a, b, BREAK, i - 5);
      } else {
        var j := i - |a|;
        assert r[i] == b[j];
        OccursAtAppend(a, b, STRONG_OPEN, j);
        OccursAtAppend(a, b, STRONG_CLOSE, j);
        OccursAtAppend(a, b, BREAK, j);
        OccursAtAppend(a, b, STRONG_OPEN, j - 7);
        OccursAtAppend(a, b, STRONG_CLOSE, j - 8);
        OccursAtAppend(a, b, BREAK, j - 5);
      }
    }
  }

  /** Inside `tag`, the first character is its only `<` and the last its only `>`. */
  predicate OwnAngles(tag: string) {
    |tag| >= 2 && tag[0] == '<' && tag[|tag| - 1] == '>'
    && forall k :: 0 < k < |tag| - 1 ==> tag[k] != '<' && tag[k] != '>'
  }

  lemma OwnAnglesInTags(tag: string)
    requires OwnAngles(tag)
    requires tag == STRONG_OPEN || tag == STRONG_CLOSE || tag == BREAK
    ensures AnglesInTags(tag)
  {
    assert OccursAt(tag, tag, 0);
    assert TagStartsAt(tag, 0);
    assert TagEndsAt(tag, |tag| - 1);
  }

  lemma TagsAreSafe()
    ensures AnglesInTags(STRONG_OPEN) && AnglesInTags(STRONG_CLOSE) && AnglesInTags(BREAK)
  {
    OwnAnglesInTags(STRONG_OPEN);
    OwnAnglesInTags(STRONG_CLOSE);
    OwnAnglesInTags(BREAK);
  }

  lemma {:induction false} EscapeEachNoAngles(g: string)
    ensures '<' !in EscapeEach(g) && '>' !in EscapeEach(g)
  {
    if g != [] {
      EscapeEachNoAngles(g[1..]);
    }
  }

  lemma StrongAnglesInTags(g: string, rest: string)
    requires AnglesInTags(rest)
    ensures AnglesInTags(STRONG_OPEN + EscapeEach(g) + STRONG_CLOSE + rest)
  {
    TagsAreSafe();
    var e := EscapeEach(g);
    EscapeEachNoAngles(g);
    AnglesAppend(STRONG_OPEN, e);
    AnglesAppend(STRONG_OPEN + e, STRONG_CLOSE);
    AnglesAppend(STRONG_OPEN + e + STRONG_CLOSE, rest);
  }

  lemma {:induction false} ReferenceAnglesInTags(s: string)
    ensures AnglesInTags(Reference(s))
    decreases |s|
  {
    TagsAreSafe();
    if s == [] {
    } else if BoldSplit(s).Some? {
      var g, rest := BoldSplit(s).value.group, BoldSplit(s).value.rest;
      ReferenceAnglesInTags(rest);
      StrongAnglesInTags(g, Reference(rest));
    } else {
      EscapeEachNoAngles([s[0]]);
      assert EscapeEach([s[0]]) == EscChar(s[0]);
      ReferenceAnglesInTags(s[1..]);
      AnglesAppend(HtmlChar(s[0]), Reference(s[1..]));
    }
  }

  /** Only the inserted `<strong>`, `</strong>` and `<br />` tags put `<` and `>` into the output. */
  lemma MarkdownAnglesInTags(text: string)
    ensures AnglesInTags(MarkdownToHtml(text))
  {
    MarkdownIsReference(text);
    ReferenceAnglesInTags(text);
  }

  // ---------------------------------------------------------------------------
  // Nothing is lost or escaped twice: the output decodes back to the input

  function Prepend(p: string, o: Option<string>): Option<string> {
    match o
    case None => None
    case Some(x) => Some(p + x)
  }

  predicate StartsWith(r: string, p: string) {
    OccursAt(r, p, 0)
  }

  /**
   * Reads rendered text token by token: tags back to their markup, entities
   * back to their characters; a bare `&`, `<` or `>` is not rendered text.
   */
  function Decode(r: string): Option<string>
    decreases |r|
  {
    if r == [] then Some([])
    else if r[0] == '<' then
      if StartsWith(r, STRONG_OPEN) then Prepend("**", Decode(r[8..]))
      else if StartsWith(r, STRONG_CLOSE) then Prepend("**", Decode(r[9..]))
      else if StartsWith(r, BREAK) then Prepend("\n", Decode(r[6..]))
      else None
    else if r[0] == '&' then
      if StartsWith(r, "&amp;") then Prepend("&", Decode(r[5..]))
      else if StartsWith(r, "&lt;") then Prepend("<", Decode(r[4..]))
      else if StartsWith(r, "&gt;") then Prepend(">", Decode(r[4..]))
      else None
    else if r[0] == '>' then None
    else Prepend([r[0]], Decode(r[1..]))
  }

  lemma PrependAssoc(a: string, b: string, o: Option<string>)
    ensures Prepend(a, Prepend(b, o)) == Prepend(a + b, o)
  {
    match o
    case None =>
    case Some(x) => assert a + (b + x) == (a + b) + x;
  }

  lemma NotStartsWith(r: string, p: string)
    requires |r| >= 2 && |p| >= 2 && r[1] != p[1]
    ensures !StartsWith(r, p)
  {
    if |p| <= |r| {
      assert r[..|p|][1] == r[1];
    }
  }

  lemma DecodeToken(t: string, d: string, rest: string)
    requires (t == STRONG_OPEN && d == "**") || (t == STRONG_CLOSE && d == "**") || (t == BREAK && d == "\n")
          || (t == "&amp;" && d == "&") || (t == "&lt;" && d == "<") || (t == "&gt;" && d == ">")
    ensures Decode(t + rest) == Prepend(d, Decode(rest))
  {
    var r := t + rest;
    assert r[..|t|] == t && r[|t|..] == rest;
    assert r[0] == t[0] && r[1] == t[1];
    if t == STRONG_CLOSE {
      NotStartsWith(r, STRONG_OPEN);
    } else if t == BREAK {
      NotStartsWith(r, STRONG_OPEN);
      NotStartsWith(r, STRONG_CLOSE);
    } else if t == "&lt;" {
      NotStartsWith(r, "&amp;");
    } else if t == "&gt;" {
      NotStartsWith(r, "&amp;");
      NotStartsWith(r, "&lt;");
    }
  }

  lemma DecodePlain(c: char, rest: string)
    requires c != '&' && c != '<' && c != '>'
    ensures Decode([c] + rest) == Prepend([c], Decode(rest))
  {
    var r := [c] + rest;
    assert r[0] == c && r[1..] == rest;
  }

  lemma DecodeEscChar(c: char, rest: string)
    ensures Decode(EscChar(c) + rest) == Prepend([c], Decode(rest))
  {
    if c == '&' {
      DecodeToken("&amp;", "&", rest);
    } else if c == '<' {
      DecodeToken("&lt;", "<", rest);
    } else if c == '>' {
      DecodeToken("&gt;", ">", rest);
    } else {
      DecodePlain(c, rest);
    }
  }

  lemma {:induction false} DecodeEscapeEach(g: string, rest: string)
    ensures Decode(EscapeEach(g) + rest) == Prepend(g, Decode(rest))
  {
    if g == [] {
      assert EscapeEach(g) + rest == rest;
      match Decode(rest)
      case None =>
      case Some(x) => assert g + x == x;
    } else {
      assert EscapeEach(g) + rest == EscChar(g[0]) + (EscapeEach(g[1..]) + rest);
      DecodeEscChar(g[0], EscapeEach(g[1..]) + rest);
      DecodeEscapeEach(g[1..], rest);
      PrependAssoc([g[0]], g[1..], Decode(rest));
      assert [g[0]] + g[1..] == g;
    }
  }

  lemma Append4(a: string, b: string, c: string, d: string)
    ensures a + b + c + d == a + (b + (c + d))
  {
  }

  lemma DecodeStrong(g: string, r: string, rest: string)
    requires Decode(r) == Some(rest)
    ensures Decode(STRONG_OPEN + EscapeEach(g) + STRONG_CLOSE + r) == Some("**" + g + "**" + rest)
  {
    var e := EscapeEach(g);
    DecodeToken(STRONG_CLOSE, "**", r);
    DecodeEscapeEach(g, STRONG_CLOSE + r);
    DecodeToken(STRONG_OPEN, "**", e + (STRONG_CLOSE + r));
    Append4(STRONG_OPEN, e, STRONG_CLOSE, r);
    Append4("**", g, "**", rest);
  }

  lemma {:induction false} DecodeReference(s: string)
    ensures Decode(Reference(s)) == Some(s)
    decreases |s|
  {
    if s == [] {
    } else if BoldSplit(s).Some? {
      var g, rest := BoldSplit(s).value.group, BoldSplit(s).value.rest;
      DecodeReference(rest);
      DecodeStrong(g, Reference(rest), rest);
    } else {
      var c := s[0];
      DecodeReference(s[1..]);
      if c == '\n' {
        DecodeToken(BREAK, "\n", Reference(s[1..]));
      } else {
        DecodeEscChar(c, Reference(s[1..]));
      }
      assert [c] + s[1..] == s;
    }
  }

  /** Decoding the formatter's output gives back the message text. */
  lemma MarkdownRoundTrip(text: string)
    ensures Decode(MarkdownToHtml(text)) == Some(text)
  {
    MarkdownIsReference(text);
    DecodeReference(text);
  }

  /** Distinct messages are rendered differently. */
  lemma MarkdownInjective(a: string, b: string)
    requires MarkdownToHtml(a) == MarkdownToHtml(b)
    ensures a == b
  {
    MarkdownRoundTrip(a);
    MarkdownRoundTrip(b);
  }

  // ---------------------------------------------------------------------------
  // Plain text passes through

  /** No character or pair that any pass rewrites. */
  predicate Plain(s: string) {
    && (forall k :: 0 <= k < |s| ==> s[k] != '&' && s[k] != '<' && s[k] != '>' && s[k] != '\n')
    && forall k :: 0 <= k < |s| ==> !StarsAt(s, k)
  }

  lemma {:induction false} ReferenceOfPlain(s: string)
    requires Plain(s)
    ensures Reference(s) == s
  {
    if s != [] {
      assert forall k :: 0 <= k < |s| - 1 ==> (StarsAt(s[1..], k) <==> StarsAt(s, k + 1));
      ReferenceOfPlain(s[1..]);
      assert [s[0]] + s[1..] == s;
    }
  }

  /** Text without `**`, `&`, `<`, `>` and newlines is returned unchanged. */
  lemma MarkdownOfPlain(s: string)
    requires Plain(s)
    ensures MarkdownToHtml(s) == s
  {
    MarkdownIsReference(s);
    ReferenceOfPlain(s);
  }
}
