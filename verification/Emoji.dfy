/** Custom emoji in message text: the printer, the scanner, and the per-message counter. */
module EmojiText {
  import opened Base

  /** Discord ids are non-zero 64-bit numbers. */
  const ID_LIMIT: nat := 0x1_0000_0000_0000_0000

  datatype Emoji = Emoji(id: nat, guild: nat, name: string, animated: bool)

  /** What one match of the emoji pattern captures. */
  datatype Token = Token(animated: bool, name: string, digits: string)

  predicate IsWord(c: char) {
    '0' <= c <= '9' || 'a' <= c <= 'z' || 'A' <= c <= 'Z' || c == '_'
  }

  predicate IsDigit(c: char) {
    '0' <= c <= '9'
  }

  predicate AllOf(s: string, p: char -> bool) {
    forall i :: 0 <= i < |s| ==> p(s[i])
  }

  // ---------------------------------------------------------------- numbers

  function DigitChar(d: nat): char
    requires d < 10
  {
    '0' + d as char
  }

  function NatToString(n: nat): (s: string)
    ensures s != "" && AllOf(s, IsDigit)
    ensures s[0] == '0' ==> s == "0"
  {
    if n < 10 then [DigitChar(n)] else NatToString(n / 10) + [DigitChar(n % 10)]
  }

  function Value(s: string): nat
    requires AllOf(s, IsDigit)
  {
    if s == "" then 0 else Value(s[..|s| - 1]) * 10 + (s[|s| - 1] - '0') as nat
  }

  lemma {:induction false} ValueOfPrinted(n: nat)
    ensures Value(NatToString(n)) == n
  {
    if n >= 10 {
      var s := NatToString(n);
      assert s[..|s| - 1] == NatToString(n / 10);
      ValueOfPrinted(n / 10);
    }
  }

  lemma {:induction false} ValuePositive(s: string)
    requires AllOf(s, IsDigit) && s != "" && s[0] != '0'
    ensures Value(s) > 0
  {
    if |s| > 1 {
      ValuePositive(s[..|s| - 1]);
    } else {
      assert s[..0] == "";
    }
  }

  /** Printing a number undoes reading it exactly when it was written without a leading zero. */
  lemma {:induction false} PrintedValue(s: string)
    requires AllOf(s, IsDigit) && s != ""
    ensures NatToString(Value(s)) == s <==> (s[0] != '0' || s == "0")
  {
    if s[0] != '0' {
      PrintedCanonical(s);
    } else if s == "0" {
      assert s[..0] == "";
    }
  }

  lemma {:induction false} PrintedCanonical(s: string)
    requires AllOf(s, IsDigit) && s != "" && s[0] != '0'
    ensures NatToString(Value(s)) == s
  {
    var init := s[..|s| - 1];
    var d := (s[|s| - 1] - '0') as nat;
    assert s == init + [DigitChar(d)];
    if init != "" {
      PrintedCanonical(init);
      ValuePositive(init);
      assert Value(s) / 10 == Value(init) && Value(s) % 10 == d;
    }
  }

  // ---------------------------------------------------------------- printer

  function Open(animated: bool): string {
    if animated then "<a:" else "<:"
  }

  function Body(t: Token): string {
    t.name + ":" + t.digits + ">"
  }

  function Render(t: Token): string {
    Open(t.animated) + Body(t)
  }

  function Print(e: Emoji): string {
    Render(Token(e.animated, e.name, NatToString(e.id)))
  }

  /** What a printed emoji looks like. */
  lemma PrintedForm(e: Emoji)
    ensures Print(e) == (if e.animated then "<a:" else "<:") + e.name + ":" + NatToString(e.id) + ">"
  {
    hide NatToString;
    RenderedDigits(Token(e.animated, e.name, NatToString(e.id)));
    var p, d := Open(e.animated), NatToString(e.id);
    assert (p + e.name + ":") + (d + ">") == p + e.name + ":" + d + ">";
  }

  /** The characters of names and ids, by their codes. */
  lemma Characters(c: char)
    ensures IsDigit(c) <==> 48 <= c as int <= 57
    ensures IsWord(c) <==> 48 <= c as int <= 57 || 65 <= c as int <= 90 || c as int == 95 || 97 <= c as int <= 122
  {
  }

  // ---------------------------------------------------------------- scanner

  predicate WellFormed(t: Token) {
    t.name != "" && AllOf(t.name, IsWord) && t.digits != "" && AllOf(t.digits, IsDigit)
  }

  /** The pattern's meaning: s begins with the text of the well-formed token t. */
  predicate Starts(s: string, t: Token) {
    WellFormed(t) && Render(t) <= s
  }

  /** The length of the longest prefix of s whose characters satisfy p. */
  function Span(s: string, p: char -> bool): (n: nat)
    ensures n <= |s| && AllOf(s[..n], p)
    ensures n < |s| ==> !p(s[n])
  {
    if s == "" || !p(s[0]) then 0
    else
      var n := Span(s[1..], p);
      assert s[..n + 1] == [s[0]] + s[1..][..n];
      n + 1
  }

  lemma {:induction false} SpanIs(run: string, p: char -> bool, rest: string)
    requires AllOf(run, p) && rest != "" && !p(rest[0])
    ensures Span(run + rest, p) == |run|
  {
    if run == "" {
      assert run + rest == rest;
    } else {
      assert (run + rest)[1..] == run[1..] + rest;
      SpanIs(run[1..], p, rest);
    }
  }

  /** Matches `word+:digit+>` at the start of s. */
  function MatchBody(animated: bool, s: string): (r: Option<Token>)
    ensures r.Some? ==> WellFormed(r.value) && r.value.animated == animated && Body(r.value) <= s
  {
    var n := Span(s, IsWord);
    if n == 0 || n == |s| || s[n] != ':' then None
    else
      var afterName := s[n + 1..];
      var d := Span(afterName, IsDigit);
      if d == 0 || d == |afterName| || afterName[d] != '>' then None
      else
        assert s == s[..n] + ":" + afterName[..d] + ">" + afterName[d + 1..];
        Some(Token(animated, s[..n], afterName[..d]))
  }

  /** Matches `<(a?):(word+):(digit+)>` at the start of s. */
  function MatchPrefix(s: string): (r: Option<Token>)
    ensures r.Some? ==> Starts(s, r.value)
  {
    if s == "" || s[0] != '<' then None
    else
      var animated := |s| > 1 && s[1] == 'a';
      var c := if animated then 2 else 1;
      if |s| <= c || s[c] != ':' then None
      else
        assert s == Open(animated) + s[c + 1..];
        MatchBody(animated, s[c + 1..])
  }

  lemma BodyComplete(t: Token, tail: string)
    requires WellFormed(t)
    ensures MatchBody(t.animated, Body(t) + tail) == Some(t)
  {
    var s := Body(t) + tail;
    var afterName := t.digits + (">" + tail);
    assert s == t.name + (":" + afterName);
    SpanIs(t.name, IsWord, ":" + afterName);
    assert s[..|t.name|] == t.name && s[|t.name| + 1..] == afterName;
    SpanIs(t.digits, IsDigit, ">" + tail);
    assert afterName[..|t.digits|] == t.digits;
  }

  /** The scanner misses no token: if one starts here, it is the one found. */
  lemma MatchComplete(s: string, t: Token)
    requires Starts(s, t)
    ensures MatchPrefix(s) == Some(t)
  {
    var c := if t.animated then 2 else 1;
    var tail := s[|Render(t)|..];
    assert s == Open(t.animated) + (Body(t) + tail);
    assert s[c + 1..] == Body(t) + tail;
    BodyComplete(t, tail);
  }

  /** All matches, scanning left to right; the search resumes after each match. */
  function Tokens(s: string): (ts: seq<Token>)
    ensures forall t :: t in ts ==> WellFormed(t)
    decreases |s|
  {
    if s == "" then []
    else
      match MatchPrefix(s)
      case Some(t) => [t] + Tokens(s[|Render(t)|..])
      case None => Tokens(s[1..])
  }

  /** What follows the token t that starts at position k. */
  function After(s: string, k: nat, t: Token): string
    requires k <= |s| && Starts(s[k..], t)
  {
    s[k..][|Render(t)|..]
  }

  /** The reference: ts are the leftmost, non-overlapping tokens of s. */
  ghost predicate Leftmost(s: string, ts: seq<Token>)
    decreases |ts|
  {
    if ts == [] then NoTokenBefore(s, |s|)
    else
      exists k: nat :: k <= |s| && FirstAt(s, k, ts[0]) && Leftmost(After(s, k, ts[0]), ts[1..])
  }

  ghost predicate NoTokenBefore(s: string, k: nat)
    requires k <= |s|
  {
    forall i, t :: 0 <= i < k ==> !Starts(s[i..], t)
  }

  ghost predicate FirstAt(s: string, k: nat, t: Token)
    requires k <= |s|
  {
    NoTokenBefore(s, k) && Starts(s[k..], t)
  }

  lemma {:induction false} SkipMisses(s: string, k: nat)
    requires k <= |s| && NoTokenBefore(s, k)
    ensures Tokens(s) == Tokens(s[k..])
    decreases k
  {
    if k == 0 {
      assert s[0..] == s;
    } else {
      forall t ensures !Starts(s, t) { assert s[0..] == s; }
      forall i, t | 0 <= i < k - 1 ensures !Starts(s[1..][i..], t) {
        assert s[1..][i..] == s[i + 1..];
      }
      SkipMisses(s[1..], k - 1);
      assert s[1..][k - 1..] == s[k..];
    }
  }

  /** The scanner computes the leftmost non-overlapping tokens, and nothing else does. */
  lemma TokensAreLeftmost(s: string, ts: seq<Token>)
    ensures Leftmost(s, ts) <==> ts == Tokens(s)
  {
    if Leftmost(s, ts) { LeftmostUnique(s, ts); }
    TokensLeftmost(s);
  }

  lemma {:induction false} LeftmostUnique(s: string, ts: seq<Token>)
    requires Leftmost(s, ts)
    ensures ts == Tokens(s)
    decreases |ts|
  {
    hide MatchPrefix, Render, Starts;
    if ts == [] {
      SkipMisses(s, |s|);
      assert s[|s|..] == "";
    } else {
      var t := ts[0];
      var k: nat :| k <= |s| && FirstAt(s, k, t) && Leftmost(After(s, k, t), ts[1..]);
      SkipMisses(s, k);
      FirstToken(s[k..], t);
      LeftmostUnique(After(s, k, t), ts[1..]);
      assert ts == [t] + ts[1..];
    }
  }

  lemma FirstToken(s: string, t: Token)
    requires Starts(s, t)
    ensures Tokens(s) == [t] + Tokens(s[|Render(t)|..])
  {
    MatchComplete(s, t);
  }

  lemma LeftmostHere(s: string, t: Token, ts: seq<Token>)
    requires Starts(s, t) && Leftmost(s[|Render(t)|..], ts)
    ensures Leftmost(s, [t] + ts)
  {
    hide Render;
    var all := [t] + ts;
    assert s[0..] == s;
    assert all[0] == t && all[1..] == ts;
    assert FirstAt(s, 0, all[0]) && After(s, 0, all[0]) == s[|Render(t)|..];
    assert Leftmost(After(s, 0, all[0]), all[1..]);
  }

  lemma LeftmostLater(s: string, ts: seq<Token>)
    requires s != "" && (forall t :: !Starts(s, t)) && Leftmost(s[1..], ts)
    ensures Leftmost(s, ts)
  {
    hide Starts;
    assert s[0..] == s;
    assert forall i :: 0 < i <= |s| ==> s[i..] == s[1..][i - 1..];
    if ts != [] {
      var k: nat :| k <= |s[1..]| && FirstAt(s[1..], k, ts[0]) && Leftmost(After(s[1..], k, ts[0]), ts[1..]);
      assert s[1..][k..] == s[k + 1..];
      assert FirstAt(s, k + 1, ts[0]);
    }
  }

  lemma {:induction false} TokensLeftmost(s: string)
    ensures Leftmost(s, Tokens(s))
    decreases |s|
  {
    hide MatchPrefix, Leftmost;
    if s == "" {
      assert Leftmost("", []) by { EmptyLeftmost(); }
    } else {
      match MatchPrefix(s)
      case Some(t) =>
        TokensLeftmost(s[|Render(t)|..]);
        LeftmostHere(s, t, Tokens(s[|Render(t)|..]));
      case None =>
        TokensLeftmost(s[1..]);
        forall t ensures !Starts(s, t) {
          if Starts(s, t) { MatchComplete(s, t); }
        }
        LeftmostLater(s, Tokens(s[1..]));
    }
  }

  lemma EmptyLeftmost()
    ensures Leftmost("", [])
  {
  }

  /** Every match takes at least six characters and matches never overlap. */
  lemma {:induction false} SixCharactersEach(s: string)
    ensures 6 * |Tokens(s)| <= |s|
    decreases |s|
  {
    if s != "" {
      match MatchPrefix(s)
      case Some(t) =>
        assert |Render(t)| >= 6 by { assert |t.name| >= 1 && |t.digits| >= 1; }
        SixCharactersEach(s[|Render(t)|..]);
      case None => SixCharactersEach(s[1..]);
    }
  }

  // ----------------------------------------------------------------- parser

  predicate ValidId(n: nat) {
    0 < n < ID_LIMIT
  }

  predicate HasDiscordId(t: Token) {
    WellFormed(t) && ValidId(Value(t.digits))
  }

  function ToEmoji(guild: nat, t: Token): Emoji
    requires WellFormed(t)
  {
    Emoji(Value(t.digits), guild, t.name, t.animated)
  }

  /** None is the panic of the id conversion: a match whose digits are zero or exceed 64 bits. */
  function Convert(guild: nat, ts: seq<Token>): Option<seq<Emoji>>
    requires forall t :: t in ts ==> WellFormed(t)
  {
    if ts == [] then Some([])
    else if !HasDiscordId(ts[0]) then None
    else
      match Convert(guild, ts[1..])
      case None => None
      case Some(rest) => Some([ToEmoji(guild, ts[0])] + rest)
  }

  function ParseEmojis(guild: nat, content: string): Option<seq<Emoji>> {
    Convert(guild, Tokens(content))
  }

  /** The parser panics exactly on a token, somewhere in the text, whose id is not a Discord id. */
  lemma {:induction false} ConvertFailsIff(guild: nat, ts: seq<Token>)
    requires forall t :: t in ts ==> WellFormed(t)
    ensures Convert(guild, ts) == None <==> exists i :: 0 <= i < |ts| && !HasDiscordId(ts[i])
    ensures forall i :: 0 <= i < |ts| ==> WellFormed(ts[i]) && (HasDiscordId(ts[i]) <==> 1 <= Value(ts[i].digits) <= 0xFFFF_FFFF_FFFF_FFFF)
    ensures Convert(guild, ts).Some? ==>
              |Convert(guild, ts).value| == |ts|
              && forall i :: 0 <= i < |ts| ==> HasDiscordId(ts[i]) && Convert(guild, ts).value[i] == ToEmoji(guild, ts[i])
  {
    if ts != [] {
      ConvertFailsIff(guild, ts[1..]);
      if Convert(guild, ts[1..]) == None {
        var i :| 0 <= i < |ts[1..]| && !HasDiscordId(ts[1..][i]);
        assert ts[i + 1] == ts[1..][i];
      } else {
        assert forall i :: 0 < i < |ts| ==> ts[i] == ts[1..][i - 1];
        if HasDiscordId(ts[0]) {
          assert Convert(guild, ts).value == [ToEmoji(guild, ts[0])] + Convert(guild, ts[1..]).value;
        }
      }
    }
  }

  lemma ZeroIdPanics(guild: nat)
    ensures ParseEmojis(guild, "<:x:0>") == None
  {
    var t := Token(false, "x", "0");
    assert Render(t) == "<:x:0>";
    MatchComplete("<:x:0>", t);
    assert "0"[..0] == "";
  }

  /** Emoji in text: gap, emoji, gap, ..., emoji, gap. */
  function Weave(es: seq<Emoji>, gaps: seq<string>): string
    requires |gaps| == |es| + 1
  {
    if es == [] then gaps[0] else gaps[0] + Print(es[0]) + Weave(es[1..], gaps[1..])
  }

  predicate Printable(e: Emoji) {
    e.name != "" && AllOf(e.name, IsWord) && ValidId(e.id)
  }

  lemma {:induction false} GapIsSkipped(gap: string, rest: string)
    requires '<' !in gap
    ensures Tokens(gap + rest) == Tokens(rest)
  {
    if gap == "" {
      assert gap + rest == rest;
    } else {
      assert (gap + rest)[1..] == gap[1..] + rest;
      GapIsSkipped(gap[1..], rest);
    }
  }

  function TokenOf(e: Emoji): (t: Token)
    ensures Printable(e) ==> WellFormed(t)
  {
    Token(e.animated, e.name, NatToString(e.id))
  }

  function TokensOf(es: seq<Emoji>): (ts: seq<Token>)
    ensures |ts| == |es| && forall i :: 0 <= i < |es| ==> ts[i] == TokenOf(es[i])
  {
    seq(|es|, i requires 0 <= i < |es| => TokenOf(es[i]))
  }

  lemma {:induction false} WovenTokens(es: seq<Emoji>, gaps: seq<string>)
    requires |gaps| == |es| + 1
    requires forall e :: e in es ==> Printable(e)
    requires forall g :: g in gaps ==> '<' !in g
    ensures Tokens(Weave(es, gaps)) == TokensOf(es)
    decreases |es|
  {
    hide Tokens, Render, Printable, WellFormed, TokenOf;
    if es == [] {
      NoTokens(gaps[0]);
    } else {
      var t := TokenOf(es[0]);
      var rest := Weave(es[1..], gaps[1..]);
      assert es[0] in es && gaps[0] in gaps;
      WeaveFirst(es, gaps);
      GapIsSkipped(gaps[0], Render(t) + rest);
      PrintedTokenFirst(t, rest);
      WovenTokens(es[1..], gaps[1..]);
      assert TokensOf(es) == [t] + TokensOf(es[1..]);
    }
  }

  lemma NoTokens(gap: string)
    requires '<' !in gap
    ensures Tokens(gap) == []
  {
    assert gap + "" == gap;
    GapIsSkipped(gap, "");
  }

  lemma WeaveFirst(es: seq<Emoji>, gaps: seq<string>)
    requires |gaps| == |es| + 1 && es != []
    ensures Weave(es, gaps) == gaps[0] + (Render(TokenOf(es[0])) + Weave(es[1..], gaps[1..]))
  {
  }

  lemma PrintedTokenFirst(t: Token, rest: string)
    requires WellFormed(t)
    ensures Tokens(Render(t) + rest) == [t] + Tokens(rest)
  {
    FirstToken(Render(t) + rest, t);
    assert (Render(t) + rest)[|Render(t)|..] == rest;
  }

  /** Parsing undoes printing, also with any '<'-free text around and between the emoji. */
  lemma ParsePrintedEmojis(guild: nat, es: seq<Emoji>, gaps: seq<string>)
    requires |gaps| == |es| + 1
    requires forall e :: e in es ==> Printable(e) && e.guild == guild
    requires forall g :: g in gaps ==> '<' !in g
    ensures ParseEmojis(guild, Weave(es, gaps)) == Some(es)
  {
    var ts := Tokens(Weave(es, gaps));
    WovenTokens(es, gaps);
    ConvertFailsIff(guild, ts);
    forall i | 0 <= i < |es| ensures HasDiscordId(ts[i]) && ToEmoji(guild, ts[i]) == es[i] {
      assert es[i] in es;
      ValueOfPrinted(es[i].id);
    }
    assert Convert(guild, ts).value == es;
  }

  /** Printing undoes parsing a token exactly when its id was written without leading zeros. */
  lemma PrintParsedToken(guild: nat, t: Token)
    requires HasDiscordId(t)
    ensures Print(ToEmoji(guild, t)) == Render(t) <==> t.digits[0] != '0'
  {
    PrintedValue(t.digits);
    assert t.digits != "0" by { assert "0"[..0] == ""; }
    hide Value, NatToString, AllOf, Render;
    var printed := NatToString(Value(t.digits));
    RenderedDigits(t);
    RenderedDigits(Token(t.animated, t.name, printed));
    if Print(ToEmoji(guild, t)) == Render(t) {
      SameMiddle(Open(t.animated) + t.name + ":", printed, t.digits);
    }
  }

  lemma RenderedDigits(t: Token)
    ensures Render(t) == (Open(t.animated) + t.name + ":") + (t.digits + ">")
  {
    hide Open;
    assert Body(t) == (t.name + ":") + (t.digits + ">");
  }

  lemma SameMiddle(p: string, a: string, b: string)
    requires p + (a + ">") == p + (b + ">")
    ensures a == b
  {
    assert a + ">" == (p + (a + ">"))[|p|..] == b + ">";
    assert a == (a + ">")[..|a|];
  }

  // ---------------------------------------------------------------- counter

  newtype i16 = x: int | -32768 <= x < 32768

  /** Release builds wrap around. */
  function Increment(x: i16): i16 {
    if x == 32767 then -32768 else x + 1
  }

  /** A 16-bit counter after n increments from zero. */
  function Wrap16(n: nat): i16 {
    if n == 0 then 0 else Increment(Wrap16(n - 1))
  }

  /** The counter is the number of increments modulo 65536, as a signed number. */
  lemma {:induction false} Wrap16Wraps(n: nat)
    ensures Wrap16(n) as int == (n + 32768) % 65536 - 32768
  {
    if n > 0 {
      Wrap16Wraps(n - 1);
    }
  }

  lemma {:induction false} Wrap16Exact(n: nat)
    ensures Wrap16(n) as int == n <==> n <= 32767
  {
    if 0 < n <= 32767 { Wrap16Exact(n - 1); }
  }

  function Ids(es: seq<Emoji>): (r: seq<nat>)
    ensures |r| == |es| && forall i :: 0 <= i < |r| ==> r[i] == es[i].id
  {
    seq(|es|, i requires 0 <= i < |es| => es[i].id)
  }

  /** The two halves of the counting map agree with the emoji seen so far. */
  ghost predicate Counted(es: seq<Emoji>, keys: map<nat, Emoji>, counts: map<nat, i16>) {
    && keys.Keys == counts.Keys == Elements(Ids(es))
    && (forall id :: id in counts ==> counts[id] == Wrap16(Count(Ids(es), id)))
    && forall id :: id in keys ==> FirstWithId(es, id, keys[id])
  }

  ghost predicate FirstWithId(es: seq<Emoji>, id: nat, e: Emoji) {
    exists i :: 0 <= i < |es| && es[i] == e && e.id == id && forall j :: 0 <= j < i ==> es[j].id != id
  }

  lemma FirstWithIdSnoc(es: seq<Emoji>, id: nat, e: Emoji, x: Emoji)
    requires FirstWithId(es, id, e)
    ensures FirstWithId(es + [x], id, e)
  {
    var i :| 0 <= i < |es| && es[i] == e && e.id == id && forall j :: 0 <= j < i ==> es[j].id != id;
    assert (es + [x])[i] == e;
  }

  lemma IdsSnoc(es: seq<Emoji>, x: Emoji, id: nat)
    ensures Elements(Ids(es + [x])) == Elements(Ids(es)) + {x.id}
    ensures Count(Ids(es + [x]), id) == Count(Ids(es), id) + (if x.id == id then 1 else 0)
  {
    assert Ids(es + [x]) == Ids(es) + [x.id];
    CountSnoc(Ids(es), x.id, id);
  }

  lemma FirstOfItsId(es: seq<Emoji>, x: Emoji)
    requires x.id !in Elements(Ids(es))
    ensures FirstWithId(es + [x], x.id, x)
    ensures Count(Ids(es), x.id) == 0
  {
    CountBounds(Ids(es), x.id);
    forall j | 0 <= j < |es| ensures (es + [x])[j].id != x.id { assert Ids(es)[j] == es[j].id; }
    assert (es + [x])[|es|] == x;
  }

  lemma CountedAgain(es: seq<Emoji>, x: Emoji, keys: map<nat, Emoji>, counts: map<nat, i16>)
    requires Counted(es, keys, counts) && x.id in counts
    ensures Counted(es + [x], keys, counts[x.id := Increment(counts[x.id])])
  {
    hide FirstWithId, Count, Ids;
    var after, counts' := es + [x], counts[x.id := Increment(counts[x.id])];
    assert Elements(Ids(after)) == counts'.Keys by { IdsSnoc(es, x, x.id); }
    forall id | id in keys ensures FirstWithId(after, id, keys[id]) {
      FirstWithIdSnoc(es, id, keys[id], x);
    }
    forall id | id in counts' ensures counts'[id] == Wrap16(Count(Ids(after), id)) {
      IdsSnoc(es, x, id);
    }
  }

  lemma CountedNew(es: seq<Emoji>, x: Emoji, keys: map<nat, Emoji>, counts: map<nat, i16>)
    requires Counted(es, keys, counts) && x.id !in counts
    ensures Counted(es + [x], keys[x.id := x], counts[x.id := 1])
  {
    forall id | id in keys
      ensures FirstWithId(es + [x], id, keys[id])
      ensures Count(Ids(es + [x]), id) == Count(Ids(es), id)
    {
      FirstWithIdSnoc(es, id, keys[id], x);
      IdsSnoc(es, x, id);
    }
    FirstOfItsId(es, x);
    IdsSnoc(es, x, x.id);
    assert Wrap16(1) == Increment(Wrap16(0));
  }

  /** Counts by emoji identity, which is the id alone; the key kept is the first one seen. */
  method CountEmojis(emojis: seq<Emoji>) returns (keys: map<nat, Emoji>, counts: map<nat, i16>)
    ensures keys.Keys == counts.Keys == Elements(Ids(emojis))
    ensures forall id :: id in counts ==> counts[id] == Wrap16(Count(Ids(emojis), id))
    ensures forall id :: id in counts ==> (counts[id] as int - multiset(Ids(emojis))[id]) % 65536 == 0
    ensures forall id :: id in keys ==> FirstWithId(emojis, id, keys[id])
  {
    hide Counted, Wrap16, Count, FirstWithId, Ids, Elements;
    keys, counts := map[], map[];
    CountedNone();
    for n := 0 to |emojis|
      invariant Counted(emojis[..n], keys, counts) && keys.Keys == counts.Keys
    {
      var e := emojis[n];
      assert emojis[..n + 1] == emojis[..n] + [e];
      if e.id in counts {
        CountedAgain(emojis[..n], e, keys, counts);
        counts := counts[e.id := Increment(counts[e.id])];
      } else {
        CountedNew(emojis[..n], e, keys, counts);
        keys := keys[e.id := e];
        counts := counts[e.id := 1];
      }
    }
    assert emojis[..|emojis|] == emojis;
    CountedAll(emojis, keys, counts);
  }

  lemma CountedNone()
    ensures Counted([], map[], map[])
  {
  }

  lemma CountedAll(es: seq<Emoji>, keys: map<nat, Emoji>, counts: map<nat, i16>)
    requires Counted(es, keys, counts)
    ensures keys.Keys == counts.Keys == Elements(Ids(es))
    ensures forall id :: id in counts ==> counts[id] == Wrap16(Count(Ids(es), id))
    ensures forall id :: id in counts ==> (counts[id] as int - multiset(Ids(es))[id]) % 65536 == 0
    ensures forall id :: id in keys ==> FirstWithId(es, id, keys[id])
  {
    hide Ids, FirstWithId;
    forall id | id in counts ensures (counts[id] as int - multiset(Ids(es))[id]) % 65536 == 0 {
      CountWraps(Ids(es), id);
    }
  }

  lemma CountWraps(s: seq<nat>, x: nat)
    ensures (Wrap16(Count(s, x)) as int - multiset(s)[x]) % 65536 == 0
  {
    hide Wrap16, Count;
    Wrap16Wraps(Count(s, x));
    CountIsMultiplicity(s, x);
  }

  lemma {:induction false} CountIsMultiplicity(s: seq<nat>, x: nat)
    ensures Count(s, x) == multiset(s)[x]
  {
    if s != [] {
      var init, last := s[..|s| - 1], s[|s| - 1];
      assert s == init + [last];
      CountIsMultiplicity(init, x);
      CountSnoc(init, last, x);
    }
  }

  /** Total of the counts over a set of ids. */
  ghost function Total(ids: set<nat>, s: seq<nat>): nat {
    if ids == {} then 0 else var id :| id in ids; Count(s, id) + Total(ids - {id}, s)
  }

  lemma {:induction false} TotalSplit(ids: set<nat>, s: seq<nat>, id: nat)
    requires id in ids
    ensures Total(ids, s) == Count(s, id) + Total(ids - {id}, s)
    decreases |ids|
  {
    var k :| k in ids && Total(ids, s) == Count(s, k) + Total(ids - {k}, s);
    if k != id {
      TotalSplit(ids - {k}, s, id);
      TotalSplit(ids - {id}, s, k);
      assert ids - {k} - {id} == ids - {id} - {k};
    }
  }

  lemma {:induction false} TotalSnoc(ids: set<nat>, s: seq<nat>, x: nat)
    ensures Total(ids, s + [x]) == Total(ids, s) + (if x in ids then 1 else 0)
    decreases |ids|
  {
    if ids != {} {
      var id :| id in ids;
      TotalSplit(ids, s, id);
      TotalSplit(ids, s + [x], id);
      TotalSnoc(ids - {id}, s, x);
      CountSnoc(s, x, id);
    }
  }

  /** The multiplicities over all ids that occur add up to the number of emoji. */
  lemma {:induction false} TotalIsLength(ids: set<nat>, s: seq<nat>)
    requires forall x :: x in s ==> x in ids
    ensures Total(ids, s) == |s|
    decreases |s|
  {
    if s == [] {
      TotalOfNothing(ids);
    } else {
      var init := s[..|s| - 1];
      assert s == init + [s[|s| - 1]];
      TotalIsLength(ids, init);
      TotalSnoc(ids, init, s[|s| - 1]);
    }
  }

  lemma {:induction false} TotalOfNothing(ids: set<nat>)
    ensures Total(ids, []) == 0
    decreases |ids|
  {
    if ids != {} {
      var id :| id in ids;
      TotalSplit(ids, [], id);
      TotalOfNothing(ids - {id});
    }
  }

  /**
   * For any message of at most 2000 characters that parses, the 16-bit counts are the true
   * multiplicities, and these add up to the number of emoji parsed.
   */
  lemma MessageCountsAreExact(guild: nat, content: string, es: seq<Emoji>, id: nat)
    requires |content| <= 2000
    requires ParseEmojis(guild, content) == Some(es)
    ensures Wrap16(Count(Ids(es), id)) as int == Count(Ids(es), id) <= 333
    ensures Total(Elements(Ids(es)), Ids(es)) == |es| <= 333
  {
    SixCharactersEach(content);
    ConvertFailsIff(guild, Tokens(content));
    CountBounds(Ids(es), id);
    Wrap16Exact(Count(Ids(es), id));
    TotalIsLength(Elements(Ids(es)), Ids(es));
  }
}
