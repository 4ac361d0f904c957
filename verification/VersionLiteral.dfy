/** The one version literal of a manifest: replace_version of scripts/version.py:71-73, 165-177. */
module VersionLiteral {
  import opened Options
  import opened PythonText

  predicate Quote(c: char) {
    c == '\"' || c == '\''
  }

  /** [^"'\n]. */
  predicate Inner(c: char) {
    !Quote(c) && c != '\n'
  }

  /** ^ in a multi-line pattern. */
  predicate Starts(s: string, i: nat) {
    i <= |s| && (i == 0 || s[i - 1] == '\n')
  }

  predicate Has(s: string, i: nat, word: string) {
    i + |word| <= |s| && forall k | 0 <= k < |word| :: s[i + k] == word[k]
  }

  /** Where the white space at i ends. */
  function Spaces(s: string, i: nat): (end: nat)
    requires i <= |s|
    ensures i <= end <= |s| && (forall k | i <= k < end :: Space(s[k])) && (end < |s| ==> !Space(s[end]))
    decreases |s| - i
  {
    if i == |s| || !Space(s[i]) then i else Spaces(s, i + 1)
  }

  /** Where the characters a value may have end. */
  function Inners(s: string, i: nat): (end: nat)
    requires i <= |s|
    ensures i <= end <= |s| && (forall k | i <= k < end :: Inner(s[k])) && (end < |s| ==> !Inner(s[end]))
    decreases |s| - i
  {
    if i == |s| || !Inner(s[i]) then i else Inners(s, i + 1)
  }

  /** Where a value stands. */
  datatype Span = Span(start: nat, end: nat)

  /** (version\s*=\s*)(["'])([^"'\n]+)(\2) at i. */
  function LiteralAt(s: string, i: nat): (r: Option<Span>) {
    if !Has(s, i, "version") then None
    else
      var equals := Spaces(s, i + 7);
      if equals == |s| || s[equals] != '=' then None
      else
        var quote := Spaces(s, equals + 1);
        if quote == |s| || !Quote(s[quote]) then None
        else
          var end := Inners(s, quote + 1);
          if quote + 1 < end < |s| && s[end] == s[quote] then Some(Span(quote + 1, end)) else None
  }

  /** The first of the positions i to n - 1 with a property. */
  function Search(p: nat -> bool, i: nat, n: nat): (r: Option<nat>)
    ensures r.Some? ==> i <= r.value < n && p(r.value)
    decreases n - i
  {
    if i >= n then None else if p(i) then Some(i) else Search(p, i + 1, n)
  }

  ghost predicate NoneIn(p: nat -> bool, i: nat, n: nat) {
    forall k: nat | i <= k < n :: !p(k)
  }

  lemma {:induction false} SearchIsFirst(p: nat -> bool, i: nat, n: nat, k: nat)
    ensures Search(p, i, n) == Some(k) <==> i <= k < n && p(k) && NoneIn(p, i, k)
    ensures Search(p, i, n) == None <==> NoneIn(p, i, n)
    decreases n - i
  {
    if i < n && !p(i) {
      SearchIsFirst(p, i + 1, n, k);
    }
  }

  /** The matches of a text, by the position of their line. */
  function Matches(s: string): nat -> Option<Span> {
    (i: nat) => if Starts(s, i) then LiteralAt(s, i) else None
  }

  function Found(m: nat -> Option<Span>): nat -> bool {
    (i: nat) => m(i).Some?
  }

  /** The value, when there is exactly one match; the search goes on after its closing quote. */
  function OnlyOf(m: nat -> Option<Span>, n: nat): Option<Span> {
    match Search(Found(m), 0, n)
    case None => None
    case Some(i) => if Search(Found(m), m(i).value.end + 1, n).None? then m(i) else None
  }

  function OnlyValue(body: string): Option<Span> {
    OnlyOf(Matches(body), |body|)
  }

  /** The only match, by position. */
  ghost predicate OnlyMatch(m: nat -> Option<Span>, n: nat, i: nat, span: Span) {
    && i < n && m(i) == Some(span)
    && (forall k: nat | k < i :: m(k).None?) && (forall k: nat | span.end < k < n :: m(k).None?)
  }

  lemma OnlyHasMatch(m: nat -> Option<Span>, n: nat, span: Span) returns (i: nat)
    requires OnlyOf(m, n) == Some(span)
    ensures OnlyMatch(m, n, i, span)
  {
    i := Search(Found(m), 0, n).value;
    SearchIsFirst(Found(m), 0, n, i);
    SearchIsFirst(Found(m), span.end + 1, n, 0);
    assert forall k: nat :: Found(m)(k) <==> m(k).Some?;
  }

  lemma MatchIsOnly(m: nat -> Option<Span>, n: nat, i: nat, span: Span)
    requires OnlyMatch(m, n, i, span)
    ensures OnlyOf(m, n) == Some(span)
  {
    SearchIsFirst(Found(m), 0, n, i);
    SearchIsFirst(Found(m), span.end + 1, n, 0);
    assert forall k: nat :: Found(m)(k) <==> m(k).Some?;
  }

  /** Where one text has no other match, another that agrees with it about the other positions has none either. */
  lemma OnlyMatchMoves(m: nat -> Option<Span>, n: nat, i: nat, span: Span, m': nat -> Option<Span>, n': nat,
                       span': Span)
    requires OnlyMatch(m, n, i, span) && i < n' && m'(i) == Some(span') && n' - span'.end == n - span.end
    requires forall k: nat | k < i && m(k).None? :: m'(k).None?
    requires forall k: nat | span'.end < k < n' && m(k - span'.end + span.end).None? :: m'(k).None?
    ensures OnlyMatch(m', n', i, span')
  {
    forall k: nat | span'.end < k < n' ensures m'(k).None? {
      var j: nat := k - span'.end + span.end;
      assert m(j).None?;
    }
  }

  lemma WordsHaveNoNewline()
    ensures (forall k | 0 <= k < 7 :: "version"[k] != '\n') && (forall k | 0 <= k < 9 :: "[project]"[k] != '\n')
  {
    assert "version" == ['v', 'e', 'r', 's', 'i', 'o', 'n'];
    assert "[project]" == ['[', 'p', 'r', 'o', 'j', 'e', 'c', 't', ']'];
  }

  /** White space other than a newline. */
  function Blanks(s: string, i: nat): (end: nat)
    requires i <= |s|
    ensures i <= end <= |s| && (forall k | i <= k < end :: s[k] != '\n')
    decreases |s| - i
  {
    if i == |s| || !Space(s[i]) || s[i] == '\n' then i else Blanks(s, i + 1)
  }

  lemma HeaderWord(s: string, i: nat)
    requires Has(s, i, "[project]")
    ensures forall k | i <= k < i + 9 :: s[k] != '\n'
  {
    WordsHaveNoNewline();
    forall k | i <= k < i + 9 ensures s[k] != '\n' {
      assert s[i + (k - i)] == "[project]"[k - i];
    }
  }

  /** \[project\][^\S\n]*\n at i: where it ends. */
  function HeaderAt(s: string, i: nat): (r: Option<nat>)
    ensures r.Some? ==>
              i + 10 <= r.value <= |s| && s[r.value - 1] == '\n' && forall k | i <= k < r.value - 1 :: s[k] != '\n'
  {
    if !Has(s, i, "[project]") then None
    else
      var end := Blanks(s, i + 9);
      assert forall k | i <= k < i + 9 :: s[k] != '\n' by { HeaderWord(s, i); }
      if end < |s| && s[end] == '\n' then Some(end + 1) else None
  }

  predicate HeaderStarts(s: string, i: nat) {
    Starts(s, i) && HeaderAt(s, i).Some?
  }

  function Headers(s: string): nat -> bool {
    (i: nat) => HeaderStarts(s, i)
  }

  function Sections(s: string): nat -> bool {
    (i: nat) => i < |s| && Starts(s, i) && s[i] == '['
  }

  /** The next line that starts with a bracket, or the end. */
  function NextSection(s: string, i: nat): (end: nat)
    requires i <= |s|
    ensures i <= end <= |s|
  {
    match Search(Sections(s), i, |s|)
    case None => |s|
    case Some(end) => end
  }

  ghost predicate SectionEnds(s: string, i: nat, end: nat) {
    i <= end <= |s| && NoneIn(Sections(s), i, end) && (end < |s| ==> Starts(s, end) && s[end] == '[')
  }

  lemma NextSectionIsNext(s: string, i: nat, end: nat)
    requires i <= |s|
    ensures NextSection(s, i) == end <==> SectionEnds(s, i, end)
  {
    SearchIsFirst(Sections(s), i, |s|, end);
    SearchIsFirst(Sections(s), i, |s|, NextSection(s, i));
  }

  /** The end of the line of the first [project] header. */
  function SectionStart(s: string): (r: Option<nat>)
    ensures r.Some? ==> r.value <= |s|
  {
    match Search(Headers(s), 0, |s|)
    case None => None
    case Some(n) => HeaderAt(s, n)
  }

  /** The only value of the section, by how a section and the value in its body are found. */
  function Locate(starts: string -> Option<nat>, only: string -> Option<Span>, s: string): Option<Span> {
    match starts(s)
    case None => None
    case Some(start) =>
      if start > |s| then None
      else
        match only(s[start..NextSection(s, start)])
        case None => None
        case Some(span) => Some(Span(start + span.start, start + span.end))
  }

  /** The value of the only version literal of the [project] section. */
  function ProjectVersion(content: string): Option<Span> {
    Locate(SectionStart, OnlyValue, content)
  }

  function Spliced(s: string, span: Span, value: string): string
    requires span.start <= span.end <= |s|
  {
    s[..span.start] + value + s[span.end..]
  }

  /** replace_version; None is the ValueError of a missing section or of any number of literals but one. */
  function Replaced(content: string, value: string): Option<string> {
    match ProjectVersion(content)
    case None => None
    case Some(span) => if span.start <= span.end <= |content| then Some(Spliced(content, span, value)) else None
  }

  /* ---------- the shape of a match ---------- */

  predicate Shape(s: string, i: nat, equals: nat, span: Span) {
    && i + 7 <= equals && equals + 1 < span.start < span.end < |s| && Has(s, i, "version")
    && (forall k | i + 7 <= k < equals :: Space(s[k])) && s[equals] == '='
    && (forall k | equals < k < span.start - 1 :: Space(s[k])) && Quote(s[span.start - 1])
    && (forall k | span.start <= k < span.end :: Inner(s[k])) && s[span.end] == s[span.start - 1]
  }

  lemma MatchHasShape(s: string, i: nat) returns (equals: nat)
    requires LiteralAt(s, i).Some?
    ensures Shape(s, i, equals, LiteralAt(s, i).value)
  {
    equals := Spaces(s, i + 7);
  }

  lemma {:induction false} SpacesAre(s: string, i: nat, end: nat)
    requires i <= end < |s| && (forall k | i <= k < end :: Space(s[k])) && !Space(s[end])
    ensures Spaces(s, i) == end
    decreases end - i
  {
    if i < end {
      SpacesAre(s, i + 1, end);
    }
  }

  lemma {:induction false} InnersAre(s: string, i: nat, end: nat)
    requires i <= end < |s| && (forall k | i <= k < end :: Inner(s[k])) && !Inner(s[end])
    ensures Inners(s, i) == end
    decreases end - i
  {
    if i < end {
      InnersAre(s, i + 1, end);
    }
  }

  lemma ShapeMatches(s: string, i: nat, equals: nat, span: Span)
    requires Shape(s, i, equals, span)
    ensures LiteralAt(s, i) == Some(span)
  {
    SpacesAre(s, i + 7, equals);
    SpacesAre(s, equals + 1, span.start - 1);
    InnersAre(s, span.start, span.end);
  }

  /** No newline in the word or in the value: a match that begins before a line with "v" ends before it as well. */
  lemma MatchEndsBeforeLine(s: string, i: nat, n: nat)
    requires i < n < |s| && Starts(s, n) && s[n] == 'v' && LiteralAt(s, i).Some?
    ensures LiteralAt(s, i).value.end < n
  {
    var equals := MatchHasShape(s, i);
    WordsHaveNoNewline();
    forall k | i <= k < i + 7 ensures s[k] != '\n' {
      assert s[i + (k - i)] == "version"[k - i];
    }
  }

  /* ---------- a spliced value is found again ---------- */

  predicate Clean(value: string) {
    value != "" && forall k | 0 <= k < |value| :: Inner(value[k])
  }

  /** t is s with another value in the place of the match at n. */
  ghost predicate Respliced(s: string, t: string, n: nat, span: Span, value: string) {
    && Starts(s, n) && LiteralAt(s, n) == Some(span) && n < span.start <= span.end < |s| && Clean(value)
    && |t| == |s| + |value| - (span.end - span.start)
    && (forall k {:trigger t[k]} | 0 <= k < span.start :: t[k] == s[k])
    && (forall k {:trigger t[k]} | span.start <= k < span.start + |value| :: t[k] == value[k - span.start])
    && (forall k {:trigger t[k]} | span.start + |value| <= k < |t| :: t[k] == s[k - |value| + (span.end - span.start)])
  }

  lemma SplicedIsRespliced(s: string, n: nat, span: Span, value: string)
    requires Starts(s, n) && LiteralAt(s, n) == Some(span) && Clean(value)
    ensures span.start <= span.end <= |s| && Respliced(s, Spliced(s, span, value), n, span, value)
  {
    var equals := MatchHasShape(s, n);
  }

  lemma MatchIsFoundAgain(s: string, t: string, n: nat, span: Span, value: string)
    requires Respliced(s, t, n, span, value)
    ensures Starts(t, n) && LiteralAt(t, n) == Some(Span(span.start, span.start + |value|))
  {
    var equals := MatchHasShape(s, n);
    assert t[span.start + |value|] == s[span.end];
    ShapeMatches(t, n, equals, Span(span.start, span.start + |value|));
  }

  lemma NoMatchBefore(s: string, t: string, n: nat, span: Span, value: string, i: nat)
    requires Respliced(s, t, n, span, value) && i < n && Matches(s)(i).None?
    ensures Matches(t)(i).None?
  {
    if Matches(t)(i).Some? {
      var first := MatchHasShape(s, n);
      assert s[n] == "version"[0] && t[n] == s[n];
      MatchEndsBeforeLine(t, i, n);
      var equals := MatchHasShape(t, i);
      var found := LiteralAt(t, i).value;
      forall k | 0 <= k <= found.end ensures s[k] == t[k] {
      }
      ShapeCopies(t, s, i, equals, found);
    }
  }

  lemma ShapeCopies(t: string, s: string, i: nat, equals: nat, span: Span)
    requires Shape(t, i, equals, span) && span.end < |s|
    requires forall k {:trigger s[k]} | 0 <= k <= span.end :: s[k] == t[k]
    ensures LiteralAt(s, i) == Some(span)
  {
    ShapeMatches(s, i, equals, span);
  }

  /** A match only depends on the text it covers, wherever that stands. */
  lemma ShapeShifts(t: string, s: string, i: nat, j: nat, equals: nat, span: Span)
    requires Shape(t, i, equals, span) && j <= |s| && |s| - j == |t| - i
    requires forall k {:trigger s[k]} | j <= k < |s| :: s[k] == t[k - j + i]
    ensures LiteralAt(s, j) == Some(Span(span.start - i + j, span.end - i + j))
  {
    ShapeMatches(s, j, equals - i + j, Span(span.start - i + j, span.end - i + j));
  }

  lemma NoMatchAfter(s: string, t: string, n: nat, span: Span, value: string, i: nat, j: nat)
    requires Respliced(s, t, n, span, value) && span.end < i < |s| && j - i == |value| - (span.end - span.start)
    requires Matches(s)(i).None?
    ensures Matches(t)(j).None?
  {
    if Matches(t)(j).Some? {
      assert s[i - 1] == t[j - 1];
      var equals := MatchHasShape(t, j);
      ShapeShifts(t, s, j, i, equals, LiteralAt(t, j).value);
    }
  }

  lemma OnlyMatchIsFoundAgain(s: string, t: string, n: nat, span: Span, value: string)
    requires OnlyMatch(Matches(s), |s|, n, span) && Respliced(s, t, n, span, value)
    ensures OnlyMatch(Matches(t), |t|, n, Span(span.start, span.start + |value|))
  {
    var span' := Span(span.start, span.start + |value|);
    MatchIsFoundAgain(s, t, n, span, value);
    forall k: nat | k < n && Matches(s)(k).None? ensures Matches(t)(k).None? {
      NoMatchBefore(s, t, n, span, value, k);
    }
    forall k: nat | span'.end < k < |t| && Matches(s)(k - span'.end + span.end).None? ensures Matches(t)(k).None? {
      NoMatchAfter(s, t, n, span, value, k - span'.end + span.end, k);
    }
    OnlyMatchMoves(Matches(s), |s|, n, span, Matches(t), |t|, span');
  }

  /* ---------- the whole manifest ---------- */

  /** t agrees with s outside the value, which stands at `from` in both. */
  ghost predicate Differ(s: string, t: string, from: nat, to: nat, to': nat) {
    && from <= to <= |s| && from <= to' <= |t| && |t| - to' == |s| - to
    && (forall k {:trigger t[k]} | 0 <= k < from :: t[k] == s[k])
    && (forall k {:trigger t[k]} | to' <= k < |t| :: t[k] == s[k - to' + to])
  }

  lemma {:induction false} BlanksAre(s: string, i: nat, end: nat)
    requires i <= end < |s| && (forall k | i <= k < end :: Space(s[k]) && s[k] != '\n') && s[end] == '\n'
    ensures Blanks(s, i) == end
    decreases end - i
  {
    if i < end {
      BlanksAre(s, i + 1, end);
    }
  }

  lemma {:induction false} BlanksAreSpaces(s: string, i: nat)
    requires i <= |s|
    ensures forall k | i <= k < Blanks(s, i) :: Space(s[k])
    decreases |s| - i
  {
    if i < Blanks(s, i) {
      BlanksAreSpaces(s, i + 1);
    }
  }

  /** A header is read within its own line. */
  lemma HeaderIsLocal(s: string, t: string, i: nat)
    requires HeaderAt(s, i).Some? && HeaderAt(s, i).value <= |t|
    requires forall k {:trigger t[k]} | 0 <= k < HeaderAt(s, i).value :: t[k] == s[k]
    ensures HeaderAt(t, i) == HeaderAt(s, i)
  {
    BlanksAreSpaces(s, i + 9);
    BlanksAre(t, i + 9, HeaderAt(s, i).value - 1);
  }

  lemma NoHeaderBefore(s: string, t: string, header: nat, start: nat, i: nat)
    requires Starts(s, header) && start <= |s| && start <= |t|
    requires forall k {:trigger t[k]} | 0 <= k < start :: t[k] == s[k]
    requires header < start && HeaderAt(s, i).None? && i < header
    ensures HeaderAt(t, i).None?
  {
    if HeaderAt(t, i).Some? {
      assert t[header - 1] == '\n';
      HeaderIsLocal(t, s, i);
    }
  }

  /** Finding the section takes no more than the text up to it. */
  lemma SectionStartIsLocal(s: string, t: string, start: nat)
    requires SectionStart(s) == Some(start) && start <= |t| && forall k {:trigger t[k]} | 0 <= k < start :: t[k] == s[k]
    ensures SectionStart(t) == Some(start)
  {
    var header := Search(Headers(s), 0, |s|).value;
    SearchIsFirst(Headers(s), 0, |s|, header);
    HeaderIsLocal(s, t, header);
    forall i: nat | i < header && Headers(t)(i) ensures false {
      assert Starts(s, i) && !Headers(s)(i);
      NoHeaderBefore(s, t, header, start, i);
    }
    SearchIsFirst(Headers(t), 0, |t|, header);
  }

  /** The section ends where it ended, moved by what the value grew. */
  lemma SectionIsFoundAgain(s: string, t: string, start: nat, end: nat, from: nat, to: nat, to': nat)
    requires Differ(s, t, from, to, to') && start < from && to < end && SectionEnds(s, start, end)
    requires (forall k {:trigger t[k]} | from <= k < to' :: t[k] != '\n') && s[to] != '[' && s[from - 1] != '\n'
    ensures SectionEnds(t, start, end - to + to')
  {
    var end' := end - to + to';
    assert t[from - 1] == s[from - 1];
    forall i: nat | start <= i < end' ensures !Sections(t)(i) {
      if i < from {
        assert !Sections(s)(i);
      } else if i > to' {
        var j := i - to' + to;
        assert !Sections(s)(j) && s[j - 1] == t[i - 1] && s[j] == t[i];
      }
    }
    if end < |s| {
      assert t[end'] == s[end];
      assert t[end' - 1] == s[end - 1];
    }
  }

  /** A body's value with its quotes, and the same body with another value. */
  ghost predicate Replaceable(only: string -> Option<Span>, body: string, span: Span, value: string) {
    && 0 < span.start <= span.end < |body| && body[span.start - 1] != '\n' && body[span.end] != '['
    && only(Spliced(body, span, value)) == Some(Span(span.start, span.start + |value|))
  }

  lemma OnlyMatchIsReplaced(body: string, t: string, n: nat, span: Span, value: string)
    requires OnlyMatch(Matches(body), |body|, n, span) && Starts(body, n) && Clean(value)
    requires span.start <= span.end <= |body| && t == Spliced(body, span, value)
    ensures OnlyMatch(Matches(t), |t|, n, Span(span.start, span.start + |value|))
  {
    SplicedIsRespliced(body, n, span, value);
    OnlyMatchIsFoundAgain(body, t, n, span, value);
  }

  lemma MatchIsAtStart(body: string, n: nat)
    requires Matches(body)(n).Some?
    ensures Starts(body, n) && LiteralAt(body, n) == Matches(body)(n)
  {
  }

  /** The value of a body can be replaced by any clean value and found again in the same place. */
  lemma ValueIsFoundAgain(body: string, span: Span, value: string)
    requires OnlyValue(body) == Some(span) && Clean(value)
    ensures Replaceable(OnlyValue, body, span, value)
  {
    var n := OnlyHasMatch(Matches(body), |body|, span);
    MatchIsAtStart(body, n);
    ValueIsQuoted(body, n, span);
    var t := Spliced(body, span, value);
    OnlyMatchIsReplaced(body, t, n, span, value);
    MatchIsOnly(Matches(t), |t|, n, Span(span.start, span.start + |value|));
  }

  lemma ValueIsQuoted(body: string, n: nat, span: Span)
    requires LiteralAt(body, n) == Some(span)
    ensures 0 < span.start <= span.end < |body| && body[span.start - 1] != '\n' && body[span.end] != '['
  {
    var equals := MatchHasShape(body, n);
  }

  /** Splicing a value into the body is splicing it into the manifest. */
  lemma SpliceInBody(s: string, start: nat, end: nat, span: Span, value: string)
    requires start <= end <= |s| && span.start <= span.end <= end - start
    ensures var t := Spliced(s, Span(start + span.start, start + span.end), value);
            var end' := end + |value| - (span.end - span.start);
            end' <= |t| && t[start..end'] == Spliced(s[start..end], span, value)
  {
    var t := Spliced(s, Span(start + span.start, start + span.end), value);
    var end' := end + |value| - (span.end - span.start);
    var body := s[start..end];
    assert body[..span.start] == s[start..start + span.start];
    assert body[span.end..] == s[start + span.end..end];
    assert t[start..end'] == s[start..start + span.start] + value + s[start + span.end..end];
  }

  lemma SpliceDiffers(s: string, from: nat, to: nat, value: string)
    requires from <= to <= |s| && Clean(value)
    ensures var t := Spliced(s, Span(from, to), value);
            && Differ(s, t, from, to, from + |value|)
            && forall k {:trigger t[k]} | from <= k < from + |value| :: t[k] != '\n'
  {
    var t := Spliced(s, Span(from, to), value);
    forall k | from <= k < from + |value| ensures t[k] != '\n' {
      assert t[k] == value[k - from];
    }
  }

  /** The value found in the body is the value found in the manifest. */
  lemma LocateAgain(starts: string -> Option<nat>, only: string -> Option<Span>, s: string, t: string,
                    start: nat, end: nat, span: Span, value: string)
    requires start <= |s| && end == NextSection(s, start) && Replaceable(only, s[start..end], span, value)
    requires Clean(value)
    requires t == Spliced(s, Span(start + span.start, start + span.end), value) && starts(t) == Some(start)
    ensures Locate(starts, only, t) == Some(Span(start + span.start, start + span.start + |value|))
  {
    var from, to := start + span.start, start + span.end;
    assert s[from - 1] == s[start..end][span.start - 1] && s[to] == s[start..end][span.end];
    SectionAfterSplice(s, t, start, end, from, to, value);
    SpliceInBody(s, start, end, span, value);
  }

  lemma SectionAfterSplice(s: string, t: string, start: nat, end: nat, from: nat, to: nat, value: string)
    requires start < from <= to < end <= |s| && end == NextSection(s, start) && Clean(value)
    requires t == Spliced(s, Span(from, to), value) && s[to] != '[' && s[from - 1] != '\n'
    ensures start <= |t| && NextSection(t, start) == end - to + from + |value|
  {
    SpliceDiffers(s, from, to, value);
    NextSectionIsNext(s, start, end);
    SectionIsFoundAgain(s, t, start, end, from, to, from + |value|);
    NextSectionIsNext(t, start, end - to + from + |value|);
  }

  lemma LocateParts(starts: string -> Option<nat>, only: string -> Option<Span>, s: string)
    returns (start: nat, end: nat, span: Span)
    requires Locate(starts, only, s).Some?
    ensures starts(s) == Some(start) && start <= |s| && end == NextSection(s, start)
    ensures only(s[start..end]) == Some(span)
    ensures Locate(starts, only, s) == Some(Span(start + span.start, start + span.end))
  {
    start := starts(s).value;
    end := NextSection(s, start);
    span := only(s[start..end]).value;
  }

  lemma SplicedStart(s: string, start: nat, span: Span, value: string)
    requires SectionStart(s) == Some(start) && start <= span.start <= span.end <= |s|
    ensures SectionStart(Spliced(s, span, value)) == Some(start)
  {
    SectionStartIsLocal(s, Spliced(s, span, value), start);
  }

  /** A splice behind the start of the section leaves that start alone. */
  ghost predicate StartStays(starts: string -> Option<nat>, s: string, value: string) {
    forall span: Span | span.start <= span.end <= |s| && starts(s).Some? && starts(s).value <= span.start ::
      starts(Spliced(s, span, value)) == starts(s)
  }

  /** Every value that is found in a part of this text can be replaced and found again. */
  ghost predicate ValuesStay(only: string -> Option<Span>, s: string, value: string) {
    forall start, end | 0 <= start <= end <= |s| && only(s[start..end]).Some? ::
      Replaceable(only, s[start..end], only(s[start..end]).value, value)
  }

  lemma LocatedIsFound(starts: string -> Option<nat>, only: string -> Option<Span>, content: string, value: string,
                       span: Span)
    requires Locate(starts, only, content) == Some(span) && Clean(value)
    requires StartStays(starts, content, value) && ValuesStay(only, content, value)
    ensures span.start <= span.end <= |content|
    ensures Locate(starts, only, Spliced(content, span, value)) == Some(Span(span.start, span.start + |value|))
  {
    var start, end, inner := LocateParts(starts, only, content);
    assert Replaceable(only, content[start..end], inner, value);
    LocateAgain(starts, only, content, Spliced(content, span, value), start, end, inner, value);
  }

  lemma LocatedReadsBack(starts: string -> Option<nat>, only: string -> Option<Span>, content: string, value: string)
    returns (span: Span, next: string)
    requires Locate(starts, only, content).Some? && Clean(value)
    requires StartStays(starts, content, value) && ValuesStay(only, content, value)
    ensures Locate(starts, only, content) == Some(span) && span.start <= span.end <= |content|
    ensures next == Spliced(content, span, value)
    ensures Locate(starts, only, next) == Some(Span(span.start, span.start + |value|))
    ensures Spliced(next, Span(span.start, span.start + |value|), content[span.start..span.end]) == content
  {
    span := Locate(starts, only, content).value;
    LocatedIsFound(starts, only, content, value, span);
    next := Spliced(content, span, value);
    SpliceBack(content, span, value);
  }

  lemma RealStartStays(content: string, value: string)
    ensures StartStays(SectionStart, content, value)
  {
    forall span: Span | span.start <= span.end <= |content| && SectionStart(content).Some?
        && SectionStart(content).value <= span.start
      ensures SectionStart(Spliced(content, span, value)) == SectionStart(content)
    {
      SplicedStart(content, SectionStart(content).value, span, value);
    }
  }

  lemma RealValuesStay(content: string, value: string)
    requires Clean(value)
    ensures ValuesStay(OnlyValue, content, value)
  {
    forall start, end | 0 <= start <= end <= |content| && OnlyValue(content[start..end]).Some?
      ensures Replaceable(OnlyValue, content[start..end], OnlyValue(content[start..end]).value, value)
    {
      ValueIsFoundAgain(content[start..end], OnlyValue(content[start..end]).value, value);
    }
  }

  /**
   A replaced version is the version of the result, and replacing it by the old one gives the old manifest back:
   nothing but the literal has changed.
   */
  lemma ReplacedReadsBack(content: string, value: string) returns (span: Span, next: string)
    requires ProjectVersion(content).Some? && Clean(value)
    ensures ProjectVersion(content) == Some(span) && span.start <= span.end <= |content|
    ensures next == Spliced(content, span, value)
    ensures ProjectVersion(next) == Some(Span(span.start, span.start + |value|))
    ensures Spliced(next, Span(span.start, span.start + |value|), content[span.start..span.end]) == content
  {
    RealStartStays(content, value);
    RealValuesStay(content, value);
    span, next := LocatedReadsBack(SectionStart, OnlyValue, content, value);
  }

  lemma SpliceBack(s: string, span: Span, value: string)
    requires span.start <= span.end <= |s|
    ensures var t := Spliced(s, span, value);
            Spliced(t, Span(span.start, span.start + |value|), s[span.start..span.end]) == s
  {
    var t := Spliced(s, span, value);
    assert t[..span.start] == s[..span.start] && t[span.start + |value|..] == s[span.end..];
    assert s == s[..span.start] + s[span.start..span.end] + s[span.end..];
  }
}
