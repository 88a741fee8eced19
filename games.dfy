/**
 * The text games: `reverse`, `zalgo` and `dezalgo` over the table of
 * combining characters, the `repeat` spam guard, `choose`, `8ball` and the
 * input rewrite of `calculate`. `Math.random()` draws are parameters in [0, 1).
 */
module Games {
  import opened Wrappers
  import opened JsText

  /** The combining characters `zalgo` adds and `dezalgo` removes. */
  const Characters: seq<char> := [
    // upper characters (50)
    '\U{030D}', '\U{030E}', '\U{0304}', '\U{0305}', '\U{033F}', '\U{0311}', '\U{0306}', '\U{0310}', '\U{0352}',
    '\U{0357}', '\U{0351}', '\U{0307}', '\U{0308}', '\U{030A}', '\U{0342}', '\U{0343}', '\U{0344}', '\U{034A}',
    '\U{034B}', '\U{034C}', '\U{0303}', '\U{0302}', '\U{030C}', '\U{0350}', '\U{0300}', '\U{0301}', '\U{030B}',
    '\U{030F}', '\U{0312}', '\U{0313}', '\U{0314}', '\U{033D}', '\U{0309}', '\U{0363}', '\U{0364}', '\U{0365}',
    '\U{0366}', '\U{0367}', '\U{0368}', '\U{0369}', '\U{036A}', '\U{036B}', '\U{036C}', '\U{036D}', '\U{036E}',
    '\U{036F}', '\U{033E}', '\U{035B}', '\U{0346}', '\U{031A}',
    // middle characters (23)
    '\U{0315}', '\U{031B}', '\U{0340}', '\U{0341}', '\U{0358}', '\U{0321}', '\U{0322}', '\U{0327}', '\U{0328}',
    '\U{0334}', '\U{0335}', '\U{0336}', '\U{034F}', '\U{035C}', '\U{035D}', '\U{035E}', '\U{035F}', '\U{0360}',
    '\U{0362}', '\U{0338}', '\U{0337}', '\U{0361}', '\U{0489}',
    // low characters (40)
    '\U{0316}', '\U{0317}', '\U{0318}', '\U{0319}', '\U{031C}', '\U{031D}', '\U{031E}', '\U{031F}', '\U{0320}',
    '\U{0324}', '\U{0325}', '\U{0326}', '\U{0329}', '\U{032A}', '\U{032B}', '\U{032C}', '\U{032D}', '\U{032E}',
    '\U{032F}', '\U{0330}', '\U{0331}', '\U{0332}', '\U{0333}', '\U{0339}', '\U{033A}', '\U{033B}', '\U{033C}',
    '\U{0345}', '\U{0347}', '\U{0348}', '\U{0349}', '\U{034D}', '\U{034E}', '\U{0353}', '\U{0354}', '\U{0355}',
    '\U{0356}', '\U{0359}', '\U{035A}', '\U{0323}'
  ]

  /** Every draw of the random source lies in [0, 1). */
  ghost predicate Unit(rand: nat -> real) {
    forall k :: 0.0 <= rand(k) < 1.0
  }

  /** `Math.floor(r * n)` for a draw `r` in [0, 1): an index below `n`. */
  function Pick(r: real, n: nat): (k: nat)
    requires 0.0 <= r < 1.0 && n > 0
    ensures k < n
  {
    var x := r * n as real;
    assert 0.0 <= x < n as real by {
      assert n as real - x == (1.0 - r) * n as real;
    }
    x.Floor
  }

  // ---------------------------------------------------------------- reverse

  /** `text.split('').reverse().join('')`: the last character and the first trade places, inwards. */
  function Reverse(s: string): (r: string)
    ensures |r| == |s|
    ensures forall i :: 0 <= i < |s| ==> r[i] == s[|s| - 1 - i]
    decreases |s|
  {
    if |s| <= 1 then s
    else
      var inner := Reverse(s[1..|s| - 1]);
      [s[|s| - 1]] + inner + [s[0]]
  }

  /** Reversing twice gives the text back. */
  lemma ReverseInvolution(s: string)
    ensures Reverse(Reverse(s)) == s
  {
    var r := Reverse(s);
    forall i | 0 <= i < |s| ensures Reverse(r)[i] == s[i] {
      assert Reverse(r)[i] == r[|s| - 1 - i];
    }
  }

  // ---------------------------------------------------------- zalgo / dezalgo
  // The properties hold for any table of marks; the commands use `Characters`.

  /** No character of `table` occurs in `s`. */
  predicate Clean(s: string, table: seq<char>) {
    forall i :: 0 <= i < |s| ==> s[i] !in table
  }

  /** Every character of `m` is in `table`. */
  predicate AllMarks(m: string, table: seq<char>) {
    forall j :: 0 <= j < |m| ==> m[j] in table
  }

  /** Each mark group holds between one and five table characters. */
  predicate ZalgoMarks(marks: seq<string>, table: seq<char>) {
    forall i :: 0 <= i < |marks| ==> 1 <= |marks[i]| <= 5 && AllMarks(marks[i], table)
  }

  /** `s` with every character followed by its group of marks. */
  function Decorate(s: string, marks: seq<string>): (r: string)
    requires |marks| == |s|
    ensures |r| >= |s|
    ensures |s| > 0 ==> r[0] == s[0]
  {
    if |s| == 0 then ""
    else Decorate(s[..|s| - 1], marks[..|s| - 1]) + [s[|s| - 1]] + marks[|s| - 1]
  }

  /**
   * `zalgo`: after each character, add table characters while the counter is
   * below a fresh `floor(random * 5) + 1`, each chosen by another draw.
   * `rand(k)` is the k-th call of `Math.random()`.
   */
  method Zalgo(text: string, rand: nat -> real) returns (newMessage: string, ghost marks: seq<string>)
    requires Unit(rand)
    ensures |marks| == |text| && ZalgoMarks(marks, Characters)
    ensures newMessage == Decorate(text, marks)
    ensures 2 * |text| <= |newMessage| <= 6 * |text|
    ensures Strip(newMessage, Characters) == Strip(text, Characters)
  {
    newMessage, marks := "", [];
    var k := 0;
    var j := 0;
    while j < |text|
      invariant 0 <= j <= |text|
      invariant |marks| == j && ZalgoMarks(marks, Characters)
      invariant newMessage == Decorate(text[..j], marks)
    {
      newMessage := newMessage + [text[j]];
      var added;
      added, k := AddMarks(Characters, rand, k);
      newMessage := newMessage + added;
      assert text[..j + 1][..j] == text[..j];
      marks := marks + [added];
      assert marks[..j] == marks[..|marks| - 1];
      j := j + 1;
    }
    assert text[..j] == text;
    DecorateLength(text, marks, Characters);
    DezalgoUndoesZalgo(text, marks, Characters);
  }

  /**
   * The inner loop of `zalgo`: add a mark chosen by draw `k` while the count
   * is below a fresh `floor(random * 5) + 1`. Returns the next unused draw.
   */
  method AddMarks(table: seq<char>, rand: nat -> real, k0: nat) returns (added: string, k: nat)
    requires Unit(rand) && |table| > 0
    ensures 1 <= |added| <= 5 && AllMarks(added, table)
    ensures k > k0
  {
    added := "";
    var i := 0;
    var bound := Pick(rand(k0), 5) + 1;
    k := k0 + 1;
    while i < bound
      invariant 0 <= i <= 5 && 1 <= bound <= 5
      invariant |added| == i
      invariant AllMarks(added, table)
      invariant k > k0
      decreases 5 - i
    {
      added := added + [table[Pick(rand(k), |table|)]];
      k := k + 1;
      i := i + 1;
      bound := Pick(rand(k), 5) + 1;
      k := k + 1;
    }
  }

  /** The characters of `s` that are not in `table`, in their order. */
  function Strip(s: string, table: seq<char>): (r: string)
    ensures |r| <= |s|
  {
    if |s| == 0 then ""
    else Strip(s[..|s| - 1], table) + (if s[|s| - 1] in table then "" else [s[|s| - 1]])
  }

  /** `dezalgo`: append every character that is not in the table. */
  method Dezalgo(text: string) returns (newMessage: string)
    ensures newMessage == Strip(text, Characters)
  {
    newMessage := "";
    var j := 0;
    while j < |text|
      invariant 0 <= j <= |text|
      invariant newMessage == Strip(text[..j], Characters)
    {
      ghost var prefix := text[..j + 1];
      assert prefix[..j] == text[..j] && prefix[j] == text[j];
      if text[j] !in Characters {
        newMessage := newMessage + [text[j]];
      }
      assert Strip(prefix, Characters) == Strip(text[..j], Characters) + (if text[j] in Characters then "" else [text[j]]);
      j := j + 1;
    }
    assert text[..j] == text;
  }

  lemma {:induction false} StripConcat(a: string, b: string, table: seq<char>)
    ensures Strip(a + b, table) == Strip(a, table) + Strip(b, table)
    decreases |b|
  {
    if |b| == 0 {
      assert a + b == a;
    } else {
      var n := |b| - 1;
      var ab := a + b;
      assert ab[..|ab| - 1] == a + b[..n];
      assert ab[|ab| - 1] == b[n];
      StripConcat(a, b[..n], table);
    }
  }

  /** A single character survives `dezalgo` exactly when it is not in the table. */
  lemma StripOne(c: char, table: seq<char>)
    ensures Strip([c], table) == if c in table then "" else [c]
  {
    assert [c][..0] == [];
  }

  /** The output of `dezalgo` holds no table character. */
  lemma {:induction false} StripIsClean(s: string, table: seq<char>)
    ensures Clean(Strip(s, table), table)
    decreases |s|
  {
    if |s| > 0 {
      StripIsClean(s[..|s| - 1], table);
    }
  }

  /** Text without table characters passes through `dezalgo` unchanged. */
  lemma {:induction false} StripKeepsClean(s: string, table: seq<char>)
    requires Clean(s, table)
    ensures Strip(s, table) == s
    decreases |s|
  {
    if |s| > 0 {
      StripKeepsClean(s[..|s| - 1], table);
    }
  }

  /** `dezalgo` is idempotent. */
  lemma StripIdempotent(s: string, table: seq<char>)
    ensures Strip(Strip(s, table), table) == Strip(s, table)
  {
    StripIsClean(s, table);
    StripKeepsClean(Strip(s, table), table);
  }

  /** `dezalgo` keeps every character outside the table as often as it occurs. */
  lemma {:induction false} StripKeepsOthers(s: string, table: seq<char>, c: char)
    requires c !in table
    ensures multiset(Strip(s, table))[c] == multiset(s)[c]
    decreases |s|
  {
    if |s| > 0 {
      var prefix, last := s[..|s| - 1], s[|s| - 1];
      StripKeepsOthers(prefix, table, c);
      assert s == prefix + [last];
    }
  }

  /** A group of table characters disappears under `dezalgo`. */
  lemma {:induction false} StripOfMarks(m: string, table: seq<char>)
    requires AllMarks(m, table)
    ensures Strip(m, table) == ""
    decreases |m|
  {
    if |m| > 0 {
      StripOfMarks(m[..|m| - 1], table);
    }
  }

  /** One step of the round trip: the last character and its marks. */
  lemma StripDecorateStep(prefix: string, c: char, m: string, table: seq<char>)
    requires AllMarks(m, table)
    ensures Strip(prefix + [c] + m, table) == Strip(prefix, table) + Strip([c], table)
  {
    StripConcat(prefix + [c], m, table);
    StripConcat(prefix, [c], table);
    StripOfMarks(m, table);
  }

  /** `dezalgo` undoes `zalgo`: the marks vanish and the text is stripped as before. */
  lemma {:induction false} DezalgoUndoesZalgo(s: string, marks: seq<string>, table: seq<char>)
    requires |marks| == |s| && ZalgoMarks(marks, table)
    ensures Strip(Decorate(s, marks), table) == Strip(s, table)
    decreases |s|
  {
    if |s| > 0 {
      var n := |s| - 1;
      assert ZalgoMarks(marks[..n], table);
      DezalgoUndoesZalgo(s[..n], marks[..n], table);
      assert AllMarks(marks[n], table);
      StripDecorateStep(Decorate(s[..n], marks[..n]), s[n], marks[n], table);
      StripConcat(s[..n], [s[n]], table);
      assert s == s[..n] + [s[n]];
    }
  }

  /** On text without table characters the round trip gives the text back. */
  lemma ZalgoRoundTrip(s: string, marks: seq<string>, table: seq<char>)
    requires |marks| == |s| && ZalgoMarks(marks, table) && Clean(s, table)
    ensures Strip(Decorate(s, marks), table) == s
  {
    DezalgoUndoesZalgo(s, marks, table);
    StripKeepsClean(s, table);
  }

  /** Each character gains between one and five marks. */
  lemma {:induction false} DecorateLength(s: string, marks: seq<string>, table: seq<char>)
    requires |marks| == |s| && ZalgoMarks(marks, table)
    ensures 2 * |s| <= |Decorate(s, marks)| <= 6 * |s|
    decreases |s|
  {
    if |s| > 0 {
      var n := |s| - 1;
      assert ZalgoMarks(marks[..n], table);
      DecorateLength(s[..n], marks[..n], table);
      assert 1 <= |marks[n]| <= 5;
    }
  }

  // ------------------------------------------------------------------ repeat

  /** The result of JavaScript's unary `+` on a string. */
  datatype JsNumber = NaN | Num(value: nat)

  predicate IsDigit(c: char) {
    '0' as int <= c as int <= '9' as int
  }

  function DecimalValue(s: string): nat
    requires forall i :: 0 <= i < |s| ==> IsDigit(s[i])
  {
    if |s| == 0 then 0
    else
      var c := s[|s| - 1];
      assert IsDigit(c);
      10 * DecimalValue(s[..|s| - 1]) + (c as int - '0' as int)
  }

  /** `+s`: the empty string is 0, a string of decimal digits its value; the rest is NaN here. */
  function ToNumber(s: string): (r: JsNumber)
    ensures r == NaN <==> exists i :: 0 <= i < |s| && !IsDigit(s[i])
    ensures |s| == 0 ==> r == Num(0)
  {
    if forall i :: 0 <= i < |s| ==> IsDigit(s[i]) then Num(DecimalValue(s)) else NaN
  }

  /** `t` written `n` times. */
  function Repeated(t: string, n: nat): string
  {
    if n == 0 then "" else Repeated(t, n - 1) + t
  }

  lemma {:induction false} RepeatedLength(t: string, n: nat)
    ensures |Repeated(t, n)| == n * |t|
  {
    if n > 0 {
      RepeatedLength(t, n - 1);
    }
  }

  const SpamRefusal: string := "To prevent spam, your excessive message has not been repeated."
  const LagRefusal: string := "This is known to lag users and is disabled."
  const LagTokens: seq<string> := ["_", "*", "~"]

  /** The spam guard: a count times the text length of 2001 or more. NaN never trips it. */
  predicate TooLong(count: JsNumber, text: string) {
    count.Num? && count.value * |text| >= 2001
  }

  /**
   * The generator of `repeat` as written: the count is `args[1]` and the text
   * is everything after the first `8 + args[1].length + 1` characters of the
   * content. With fewer than two arguments `args[1].length` throws.
   */
  function RepeatReply(content: string, args: seq<string>): (r: Attempt<string>)
    ensures r.Threw? <==> |args| < 2
  {
    if |args| < 2 then Threw
    else
      var count := ToNumber(args[1]);
      var text := Substring(content, 8 + |args[1]| + 1);
      if TooLong(count, text) then Done(SpamRefusal)
      else if args[1] in LagTokens then Done(LagRefusal)
      else Done(if count.Num? then Repeated(text, count.value) else "")
  }

  /** `repeat`: the two refusals, then the loop that appends the text `+args[1]` times. */
  method Repeat(content: string, args: seq<string>) returns (r: Attempt<string>)
    ensures r == RepeatReply(content, args)
  {
    if |args| < 2 {
      return Threw;
    }
    var count := ToNumber(args[1]);
    var text := Substring(content, 8 + |args[1]| + 1);
    if TooLong(count, text) {
      return Done(SpamRefusal);
    } else if args[1] == "_" || args[1] == "*" || args[1] == "~" {
      return Done(LagRefusal);
    }
    var generatedMessage := "";
    if count.Num? {
      var x := 0;
      while x < count.value
        invariant 0 <= x <= count.value
        invariant generatedMessage == Repeated(text, x)
      {
        generatedMessage := generatedMessage + text;
        x := x + 1;
      }
    }
    return Done(generatedMessage);
  }

  /**
   * The three outcomes of `repeat`: the spam refusal when count times length
   * reaches 2001; otherwise the lag refusal for `_`, `*` and `~`; otherwise the
   * text repeated, which is then shorter than 2001 characters.
   */
  lemma RepeatOutcomes(content: string, args: seq<string>)
    requires |args| >= 2
    ensures var text := Substring(content, 8 + |args[1]| + 1);
      var count := ToNumber(args[1]);
      && (TooLong(count, text) ==> RepeatReply(content, args) == Done(SpamRefusal))
      && (args[1] in LagTokens ==> RepeatReply(content, args) == Done(LagRefusal))
      && (!TooLong(count, text) && args[1] !in LagTokens ==>
            RepeatReply(content, args).value == (if count.Num? then Repeated(text, count.value) else "")
            && |RepeatReply(content, args).value| < 2001)
  {
    var count := ToNumber(args[1]);
    var text := Substring(content, 8 + |args[1]| + 1);
    if args[1] in LagTokens {
      assert !IsDigit(args[1][0]);
    }
    if count.Num? {
      RepeatedLength(text, count.value);
    }
  }

  /**
   * As written, `repeat` reads its count from the second argument: for
   * `/repeat 3 hi` the count is `+"hi"`, which is NaN, and the reply is empty.
   */
  lemma RepeatReadsWrongArgument()
    ensures RepeatReply("/repeat 3 hi", ["3", "hi"]) == Done("")
  {
    assert !IsDigit('h');
  }

  /** `repeat` with the count taken from the first argument, as its usage text describes. */
  function RepeatReplyFixed(content: string, args: seq<string>): (r: Attempt<string>)
    ensures r.Threw? <==> |args| < 1
  {
    if |args| < 1 then Threw
    else
      var count := ToNumber(args[0]);
      var text := Substring(content, 8 + |args[0]| + 1);
      if TooLong(count, text) then Done(SpamRefusal)
      else if args[0] in LagTokens then Done(LagRefusal)
      else Done(if count.Num? then Repeated(text, count.value) else "")
  }

  /**
   * For `/repeat <n> <text>` with a decimal count `n`, the corrected reply is
   * the text written `n` times, unless that reaches 2001 characters.
   */
  lemma RepeatFixedRepeatsText(n: string, t: string, rest: seq<string>)
    requires |n| > 0 && forall i :: 0 <= i < |n| ==> IsDigit(n[i])
    ensures var r := RepeatReplyFixed("/repeat " + n + " " + t, [n] + rest);
      && (DecimalValue(n) * |t| < 2001 ==> r == Done(Repeated(t, DecimalValue(n))))
      && (DecimalValue(n) * |t| >= 2001 ==> r == Done(SpamRefusal))
  {
    var prefix := "/repeat " + n + " ";
    var content := prefix + t;
    assert |prefix| == 8 + |n| + 1;
    assert Substring(content, |prefix|) == t by {
      assert content[|prefix|..] == t;
    }
    assert n !in LagTokens by {
      assert IsDigit(n[0]);
    }
    var args := [n] + rest;
    assert args[0] == n;
    assert ToNumber(n) == Num(DecimalValue(n));
  }

  /** On the same input the corrected `repeat` produces the repetition the usage describes. */
  lemma RepeatFixedOnExample()
    ensures RepeatReplyFixed("/repeat 3 hi", ["3", "hi"]) == Done("hihihi")
  {
    assert Substring("/repeat 3 hi", 10) == "hi";
    assert ToNumber("3") == Num(3) by {
      assert IsDigit("3"[0]);
      assert "3"[..0] == "";
    }
    assert "3" !in LagTokens;
    assert Repeated("hi", 3) == "hihihi" by {
      assert Repeated("hi", 1) == "hi";
      assert Repeated("hi", 2) == "hihi";
    }
  }

  // ------------------------------------------------------------------ choose

  const ChooseUsage: string := "Correct usage: /choose item1|item2|..."

  /**
   * `choose`: without a `|` in the message the usage text, otherwise one of
   * the `|`-separated pieces of the description, picked by the draw `r`.
   */
  function Choose(content: string, desc: string, r: real): (reply: string)
    requires 0.0 <= r < 1.0
    ensures reply == ChooseUsage ||
      exists k :: 0 <= k < |SplitOn(desc, "|")| && reply == "I choose: " + SplitOn(desc, "|")[k]
  {
    if |SplitOn(content, "|")| == 1 then ChooseUsage
    else
      var choices := SplitOn(desc, "|");
      var k := Pick(r, |choices|);
      assert "I choose: " + choices[k] == "I choose: " + SplitOn(desc, "|")[k];
      "I choose: " + choices[k]
  }

  /** The usage text exactly when the message has no `|`; otherwise a piece of the description. */
  lemma ChooseOutcome(content: string, desc: string, r: real)
    requires 0.0 <= r < 1.0
    ensures Choose(content, desc, r) == ChooseUsage <==> '|' !in content
    ensures '|' in content ==>
      exists k :: 0 <= k < |SplitOn(desc, "|")| && Choose(content, desc, r) == "I choose: " + SplitOn(desc, "|")[k]
    ensures '|' in content ==> forall k :: 0 <= k < |SplitOn(desc, "|")| ==> '|' !in SplitOn(desc, "|")[k]
  {
    SplitSingleIff(content, "|");
    ContainsChar(content, '|');
    var choices := SplitOn(desc, "|");
    SplitPiecesFree(desc, "|");
    forall k | 0 <= k < |choices| ensures '|' !in choices[k] {
      ContainsChar(choices[k], '|');
    }
    if '|' in content {
      var reply := Choose(content, desc, r);
      assert reply[3] == 'h' && ChooseUsage[3] == 'r';
    }
  }

  // ------------------------------------------------------------------- 8ball

  const Responses: seq<string> := [
    "It is certain.", "It is decidedly so.", "Better not tell you now.",
    "My sources say no.", "Without a doubt.", "Concentrate and ask again.",
    "My reply is no.", "No.", "Yes, definitely.",
    "Ask again later.", "Reply hazy, try again later."
  ]

  const EightBallPrefix: string := "The \U{1F3B1} has spoken.\n8ball: "

  /** `8ball`: the fixed preamble and one of the eleven responses, picked by the draw `r`. */
  function EightBall(r: real): (reply: string)
    requires 0.0 <= r < 1.0
    ensures exists k :: 0 <= k < |Responses| && reply == EightBallPrefix + Responses[k]
  {
    EightBallPrefix + Responses[Pick(r, |Responses|)]
  }

  /** Every response can be drawn: the k-th one for a draw in [k/11, (k+1)/11). */
  lemma EightBallReachesEveryResponse(k: nat)
    requires k < |Responses|
    ensures EightBall(k as real / |Responses| as real) == EightBallPrefix + Responses[k]
  {
    PickExact(k, |Responses|);
  }

  /** The draw `k / n` picks index `k`. */
  lemma PickExact(k: nat, n: nat)
    requires k < n
    ensures 0.0 <= k as real / n as real < 1.0
    ensures Pick(k as real / n as real, n) == k
  {
    var r := k as real / n as real;
    assert r * n as real == k as real;
  }

  // --------------------------------------------------------------- calculate

  /** The expression handed to the evaluator: arguments joined by spaces, `,` to `.`, `÷` to `/`. */
  function CalculateInput(args: seq<string>): (e: string)
    ensures |e| == |Join(args, " ")|
  {
    var j := Join(args, " ");
    ReplaceCharIsMap(j, ',', '.');
    ReplaceCharIsMap(MapChar(j, ',', '.'), '÷', '/');
    ReplaceAll(ReplaceAll(j, ",", "."), "÷", "/")
  }

  /** The rewrite maps characters in place and leaves every other character alone. */
  lemma CalculateInputRewrites(args: seq<string>)
    ensures var j := Join(args, " ");
      var e := CalculateInput(args);
      && |e| == |j|
      && (forall i :: 0 <= i < |j| ==>
            e[i] == (if j[i] == ',' then '.' else if j[i] == '÷' then '/' else j[i]))
  {
    var j := Join(args, " ");
    ReplaceCharIsMap(j, ',', '.');
    var once := MapChar(j, ',', '.');
    ReplaceCharIsMap(once, '÷', '/');
  }

  /** The rewritten expression has neither a decimal comma nor a division sign. */
  lemma CalculateInputClean(args: seq<string>)
    ensures ',' !in CalculateInput(args) && '÷' !in CalculateInput(args)
  {
    CalculateInputRewrites(args);
    var e := CalculateInput(args);
    forall i | 0 <= i < |e| ensures e[i] != ',' && e[i] != '÷' {
    }
  }

  const CalculateFailure: string := "Invalid expression >_<"

  /**
   * `calculate`: the evaluator's value after `:3 result: `, or the failure
   * text when it throws. The evaluator is a parameter: `None` stands for a throw.
   */
  function Calculate(args: seq<string>, evaluate: string -> Option<string>): (reply: string)
    ensures evaluate(CalculateInput(args)).None? ==> reply == CalculateFailure
    ensures evaluate(CalculateInput(args)).Some? ==> reply == ":3 result: " + evaluate(CalculateInput(args)).value
  {
    match evaluate(CalculateInput(args))
    case None => CalculateFailure
    case Some(v) => ":3 result: " + v
  }
}
