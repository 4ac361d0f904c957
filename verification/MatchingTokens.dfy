/**
 The token index of migrations/versions/0024_partnerships.py:980-1012, and why no match of
 packages/core/src/partner_matching.py is lost by searching through it.
 */
module MatchingTokens {
  const LONGEST := 200
  const ANY := "__any__"
  const UNICODE := "__unicode__"

  /* ---------- characters ---------- */

  predicate Ascii(c: char) {
    c as int < 128
  }

  predicate AllAscii(s: string) {
    forall c | c in s :: Ascii(c)
  }

  /** The capital and dotless i, the long s and the Kelvin sign. */
  predicate Lookalike(c: char) {
    c == '\U{130}' || c == '\U{131}' || c == '\U{17F}' || c == '\U{212A}'
  }

  /** lower(translate(...)) in the C collation: four lookalikes and the ASCII capitals. */
  function Fold(c: char): char {
    if c == '\U{130}' || c == '\U{131}' then 'i'
    else if c == '\U{17F}' then 's'
    else if c == '\U{212A}' then 'k'
    else if 'A' <= c <= 'Z' then c + 32 as char
    else c
  }

  function Folded(s: string): (r: string)
    ensures |r| == |s| && forall i | 0 <= i < |s| :: r[i] == Fold(s[i])
  {
    seq(|s|, i requires 0 <= i < |s| => Fold(s[i]))
  }

  /** The class [a-z0-9_]. */
  predicate Indexed(c: char) {
    'a' <= c <= 'z' || '0' <= c <= '9' || c == '_'
  }

  /* ---------- runs of indexed characters, cut every 200 ---------- */

  /** How far [a-z0-9_]{1,k} reaches from the start of s. */
  function Reach(s: string, k: nat): (n: nat)
    ensures n <= k && n <= |s|
  {
    if k == 0 || s == "" || !Indexed(s[0]) then 0 else 1 + Reach(s[1..], k - 1)
  }

  /** regexp_matches with the g flag: leftmost, greedy, not overlapping. */
  function Chunks(s: string): set<string>
    decreases |s|
  {
    if s == "" then {}
    else if !Indexed(s[0]) then Chunks(s[1..])
    else {s[..Reach(s, LONGEST)]} + Chunks(s[Reach(s, LONGEST)..])
  }

  /** Every chunk is a token: one to 200 indexed characters. */
  lemma {:induction false} ChunksAreTokens(s: string)
    ensures forall token | token in Chunks(s) :: 1 <= |token| <= LONGEST && forall c | c in token :: Indexed(c)
    decreases |s|
  {
    if s != "" {
      var n := if Indexed(s[0]) then Reach(s, LONGEST) else 1;
      ReachIsIndexed(s, LONGEST);
      ChunksAreTokens(s[n..]);
    }
  }

  lemma {:induction false} ReachIsIndexed(s: string, k: nat)
    ensures forall j | 0 <= j < Reach(s, k) :: Indexed(s[j])
  {
    if k > 0 && s != "" && Indexed(s[0]) {
      ReachIsIndexed(s[1..], k - 1);
      assert forall j | 0 < j < Reach(s, k) :: s[j] == s[1..][j - 1];
    }
  }

  lemma {:induction false} ReachStops(s: string, k: nat, j: nat)
    requires j < |s| && !Indexed(s[j])
    ensures Reach(s, k) <= j
  {
    if j > 0 && k > 0 && Indexed(s[0]) {
      ReachStops(s[1..], k - 1, j - 1);
    }
  }

  lemma {:induction false} ReachBefore(s: string, after: string, k: nat)
    requires after == "" || !Indexed(after[0])
    ensures Reach(s + after, k) == Reach(s, k)
  {
    if s == "" {
      assert s + after == after;
    } else if k > 0 && Indexed(s[0]) {
      assert (s + after)[1..] == s[1..] + after;
      ReachBefore(s[1..], after, k - 1);
    }
  }

  /** Text that ends outside a run leaves the runs after it alone. */
  lemma {:induction false} ChunksAfter(before: string, s: string)
    requires before == "" || !Indexed(before[|before| - 1])
    ensures Chunks(s) <= Chunks(before + s)
    decreases |before|
  {
    var text := before + s;
    if before == "" {
      assert text == s;
    } else {
      ReachStops(text, LONGEST, |before| - 1);
      var n := if Indexed(before[0]) then Reach(text, LONGEST) else 1;
      assert text[n..] == before[n..] + s;
      ChunksAfter(before[n..], s);
    }
  }

  /** Text that starts outside a run leaves the runs before it alone. */
  lemma {:induction false} ChunksBefore(s: string, after: string)
    requires after == "" || !Indexed(after[0])
    ensures Chunks(s) <= Chunks(s + after)
    decreases |s|
  {
    if s != "" {
      ReachBefore(s, after, LONGEST);
      var n := if Indexed(s[0]) then Reach(s, LONGEST) else 1;
      assert (s + after)[n..] == s[n..] + after;
      assert (s + after)[..n] == s[..n];
      ChunksBefore(s[n..], after);
    }
  }

  lemma ChunksWithin(before: string, s: string, after: string)
    requires before == "" || !Indexed(before[|before| - 1])
    requires after == "" || !Indexed(after[0])
    ensures Chunks(s) <= Chunks(before + s + after)
  {
    ChunksAfter(before, s);
    ChunksBefore(before + s, after);
  }

  /* ---------- the token columns ---------- */

  /** partner_matching_tokens. */
  function Tokens(value: string): set<string> {
    Chunks(Folded(value)) + if AllAscii(value) then {} else {UNICODE}
  }

  /** partner_products.technologies: SQL NULL, an array of texts, or some other JSON. */
  datatype Technologies = Missing | List(items: seq<string>) | NotAnArray

  /** The tokens one technology adds to its product. */
  function TechnologyTokens(technology: string): set<string> {
    var tokens := Tokens(technology);
    (tokens - {UNICODE}) + if tokens == {} || UNICODE in tokens then {ANY} else {}
  }

  function ProductTokens(technologies: Technologies): set<string> {
    match technologies
    case Missing => {}
    case NotAnArray => {ANY}
    case List(items) => ListTokens(items)
  }

  function ListTokens(items: seq<string>): (tokens: set<string>)
    ensures forall i | 0 <= i < |items| :: TechnologyTokens(items[i]) <= tokens
  {
    if items == [] then {} else ListTokens(items[..|items| - 1]) + TechnologyTokens(items[|items| - 1])
  }

  /** partner_matching_product_tokens, as the loop it is. */
  method CollectProductTokens(technologies: Technologies) returns (tokens: set<string>)
    ensures tokens == ProductTokens(technologies)
  {
    tokens := {};
    if technologies.Missing? { return; }
    if technologies.NotAnArray? { return {ANY}; }
    for i := 0 to |technologies.items|
      invariant tokens == ListTokens(technologies.items[..i])
    {
      var current := Tokens(technologies.items[i]);
      if current == {} || UNICODE in current {
        tokens := tokens + {ANY};
      }
      tokens := tokens + (current - {UNICODE});
      assert technologies.items[..i + 1][..i] == technologies.items[..i];
    }
    assert technologies.items[..|technologies.items|] == technologies.items;
  }

  lemma TechnologyIsIndexed(items: seq<string>, technology: string)
    requires technology in items
    ensures TechnologyTokens(technology) <= ProductTokens(List(items))
  {
    var i :| 0 <= i < |items| && items[i] == technology;
  }

  /* ---------- topics: equality under casefold ---------- */

  /** What is needed of str.casefold: on ASCII it lowers the letters. */
  ghost predicate Casefolds(casefold: string -> string) {
    forall s | AllAscii(s) :: casefold(s) == Folded(s)
  }

  /** The filter by which an invalidation selects products, and a product its topics. */
  predicate Selects(product: set<string>, topic: set<string>) {
    product * topic != {} || ANY in product || UNICODE in topic
  }

  function Joined(values: seq<string>): string {
    if values == [] then "" else if |values| == 1 then values[0] else values[0] + "\n" + Joined(values[1..])
  }

  /** coalesce(name, '') || newline || array_to_string(aliases, newline). */
  function TopicText(name: string, aliases: seq<string>): string {
    name + "\n" + Joined(aliases)
  }

  lemma {:induction false} LinesOf(values: seq<string>, i: nat) returns (before: string, after: string)
    requires i < |values|
    ensures Joined(values) == before + values[i] + after
    ensures before == "" || before[|before| - 1] == '\n'
    ensures after == "" || after[0] == '\n'
  {
    if i == 0 {
      before, after := "", if |values| == 1 then "" else "\n" + Joined(values[1..]);
    } else {
      var b;
      b, after := LinesOf(values[1..], i - 1);
      before := values[0] + "\n" + b;
      assert Joined(values) == values[0] + "\n" + (b + values[i] + after);
    }
  }

  /** A name or alias keeps its tokens within the text of its topic. */
  lemma LineIsIndexed(text: string, before: string, line: string, after: string)
    requires text == before + line + after
    requires (before == "" || before[|before| - 1] == '\n') && (after == "" || after[0] == '\n')
    ensures Tokens(line) <= Tokens(text)
  {
    var b, l, a := Folded(before), Folded(line), Folded(after);
    assert Folded(text) == b + l + a;
    ChunksWithin(b, l, a);
    assert forall c | c in line :: c in text;
  }

  lemma NameIsIndexed(name: string, aliases: seq<string>, line: string)
    requires line == name || line in aliases
    ensures Tokens(line) <= Tokens(TopicText(name, aliases))
  {
    if line == name {
      LineIsIndexed(TopicText(name, aliases), "", name, "\n" + Joined(aliases));
    } else {
      var i :| 0 <= i < |aliases| && aliases[i] == line;
      var b, a := LinesOf(aliases, i);
      assert TopicText(name, aliases) == (name + "\n" + b) + line + a;
      LineIsIndexed(TopicText(name, aliases), name + "\n" + b, line, a);
    }
  }

  /** A product is selected for every topic that one of its technologies names, whatever the alphabet. */
  lemma TopicFilterIsComplete(casefold: string -> string, items: seq<string>, technology: string,
                              name: string, aliases: seq<string>, line: string)
    requires Casefolds(casefold) && technology in items && (line == name || line in aliases)
    requires casefold(technology) == casefold(line)
    ensures Selects(ProductTokens(List(items)), Tokens(TopicText(name, aliases)))
  {
    TechnologyIsIndexed(items, technology);
    NameIsIndexed(name, aliases, line);
    if AllAscii(technology) && AllAscii(line) {
      assert Tokens(technology) == Tokens(line);
      if Tokens(line) != {} && UNICODE !in Tokens(line) {
        var token :| token in Tokens(line);
        assert token in ProductTokens(List(items)) * Tokens(TopicText(name, aliases));
      }
    }
  }

  /* ---------- articles: a whole-word match, ignoring case ---------- */

  /** Python's re on str: \w, and equality under IGNORECASE. */
  datatype Regex = Regex(word: char -> bool, same: (char, char) -> bool)

  ghost predicate Faithful(re: Regex) {
    && (forall c | Ascii(c) :: re.word(c) <==> Indexed(Fold(c)))
    && (forall c | Lookalike(c) :: re.word(c))
    && (forall c, d | Ascii(d) && re.same(c, d) :: Fold(c) == Fold(d))
  }

  /** contains(): the term occurs with no word character on either side. */
  ghost predicate OccursAt(re: Regex, text: string, term: string, i: nat) {
    && term != "" && i + |term| <= |text|
    && (forall j | 0 <= j < |term| :: re.same(text[i + j], term[j]))
    && (i > 0 ==> !re.word(text[i - 1]))
    && (i + |term| < |text| ==> !re.word(text[i + |term|]))
  }

  lemma NotAWord(re: Regex, c: char)
    requires Faithful(re) && !re.word(c)
    ensures !Indexed(Fold(c))
  {
    if !Ascii(c) {
      assert !Lookalike(c);
      assert Fold(c) == c;
    }
  }

  /** An occurrence shares the term's tokens, through the lookalikes and through runs longer than 200. */
  lemma OccurrenceIsIndexed(re: Regex, text: string, term: string, i: nat)
    requires Faithful(re) && AllAscii(term) && OccursAt(re, text, term, i)
    ensures Tokens(term) <= Tokens(text)
  {
    var folded := Folded(text);
    var before, after := folded[..i], folded[i + |term|..];
    forall j | 0 <= j < |term| ensures folded[i + j] == Folded(term)[j] {
      assert re.same(text[i + j], term[j]) && Ascii(term[j]);
    }
    assert folded == before + Folded(term) + after;
    if i > 0 { NotAWord(re, text[i - 1]); }
    if i + |term| < |text| { NotAWord(re, text[i + |term|]); }
    ChunksWithin(before, Folded(term), after);
  }

  /** product_article_candidates and article_product_candidates see every article that mentions a technology. */
  lemma ArticleFilterIsComplete(re: Regex, items: seq<string>, technology: string, text: string, i: nat)
    requires Faithful(re) && technology in items && OccursAt(re, text, technology, i)
    ensures ANY in ProductTokens(List(items)) || ProductTokens(List(items)) * Tokens(text) != {}
  {
    TechnologyIsIndexed(items, technology);
    if AllAscii(technology) {
      OccurrenceIsIndexed(re, text, technology, i);
      var tokens := Tokens(technology);
      if tokens != {} && UNICODE !in tokens {
        var token :| token in tokens;
        assert token in ProductTokens(List(items)) * Tokens(text);
      }
    }
  }
}
