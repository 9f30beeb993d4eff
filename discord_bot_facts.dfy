/** Properties of the message-condition matcher of convo/modules/discord_bot.py. */
module DiscordBotFacts {

  import opened Wrappers
  import opened Text
  import opened DiscordBot

  /** `"x"` at index `quote`: a quote, x without quotes, and a closing quote. */
  ghost predicate QuotedAt(c: string, quote: nat, x: string)
  {
    && quote + |x| + 2 <= |c|
    && c[quote] == '"'
    && c[quote + 1..quote + 1 + |x|] == x
    && (forall k :: 0 <= k < |x| ==> x[k] != '"')
    && c[quote + 1 + |x|] == '"'
  }

  /**
   * The pattern `kw\s+"([^"]*)"` read off the text directly: at index p the
   * keyword, w > 0 whitespace characters, then x in quotes.
   */
  ghost predicate PatternAt(c: string, kw: string, p: nat, w: nat, x: string)
  {
    && p + |kw| + w <= |c|
    && c[p..p + |kw|] == kw
    && w > 0
    && (forall k :: p + |kw| <= k < p + |kw| + w ==> IsSpace(c[k]))
    && QuotedAt(c, p + |kw| + w, x)
  }

  /** MatchAt captures x at p exactly when the pattern occurs there with x between the quotes. */
  lemma MatchAtIff(c: string, kw: string, p: nat, x: string)
    requires p <= |c|
    ensures MatchAt(c, kw, p) == Some(x) <==> exists w :: PatternAt(c, kw, p, w, x)
  {
    if MatchAt(c, kw, p) == Some(x) {
      MatchAtSound(c, kw, p);
    }
    if w :| PatternAt(c, kw, p, w, x) {
      MatchAtComplete(c, kw, p, w, x);
    }
  }

  lemma MatchAtSound(c: string, kw: string, p: nat)
    requires p <= |c| && MatchAt(c, kw, p).Some?
    ensures PatternAt(c, kw, p, SpaceRun(c, p + |kw|), MatchAt(c, kw, p).value)
  {
    var w := SpaceRun(c, p + |kw|);
    var quote := p + |kw| + w;
    assert IsPrefix(kw, c[p..]);
    assert c[p..][..|kw|] == c[p..p + |kw|];
    assert w > 0 && quote < |c| && c[quote] == '"';
    var found := FindFrom(c, "\"", quote + 1);
    assert found.Some?;
    var x := c[quote + 1..found.value];
    assert MatchAt(c, kw, p).value == x;
    QuoteFound(c, quote);
    assert QuotedAt(c, quote, x);
    assert forall k :: p + |kw| <= k < quote ==> IsSpace(c[k]);
  }

  /** The characters of a slice, read in the text. */
  lemma SliceChars(c: string, start: nat, x: string)
    requires start + |x| <= |c| && c[start..start + |x|] == x
    ensures forall j :: start <= j < start + |x| ==> c[j] == x[j - start]
  {
    forall j | start <= j < start + |x|
      ensures c[j] == x[j - start]
    {
      assert c[start..start + |x|][j - start] == c[j];
    }
  }

  /** From an opening quote, str.find's next quote closes the text between them. */
  lemma QuoteFound(c: string, quote: nat)
    requires quote < |c| && c[quote] == '"'
    ensures var found := FindFrom(c, "\"", quote + 1);
      found.Some? ==> QuotedAt(c, quote, c[quote + 1..found.value])
  {
    var found := FindFrom(c, "\"", quote + 1);
    if found.Some? {
      var close := found.value;
      var x := c[quote + 1..close];
      assert c[close..close + 1] == "\"";
      assert |x| == close - quote - 1;
      forall k | 0 <= k < |x|
        ensures x[k] != '"'
      {
        assert !OccursAt("\"", c, quote + 1 + k);
        assert c[quote + 1 + k..quote + 2 + k] == [x[k]];
      }
    }
  }

  /** The closing quote of a quoted text is the one str.find reports. */
  lemma QuoteFirst(c: string, quote: nat, x: string)
    requires QuotedAt(c, quote, x)
    ensures FindFrom(c, "\"", quote + 1) == Some(quote + 1 + |x|)
  {
    var close := quote + 1 + |x|;
    SliceChars(c, quote + 1, x);
    assert c[close..close + 1] == "\"";
    assert OccursAt("\"", c, close);
    forall j | quote + 1 <= j < close
      ensures !OccursAt("\"", c, j)
    {
      assert c[j] == x[j - quote - 1];
      assert c[j..j + 1] == [c[j]];
    }
  }

  lemma MatchAtComplete(c: string, kw: string, p: nat, w: nat, x: string)
    requires p <= |c| && PatternAt(c, kw, p, w, x)
    ensures MatchAt(c, kw, p) == Some(x)
  {
    var quote := p + |kw| + w;
    assert c[p..][..|kw|] == c[p..p + |kw|];
    assert IsPrefix(kw, c[p..]);
    var run := SpaceRun(c, p + |kw|);
    assert !IsSpace(c[quote]);
    assert run == w;
    QuoteFirst(c, quote, x);
  }

  /** Positions where the pattern does not match are passed over. */
  lemma {:induction false} SearchSkips(c: string, kw: string, p: nat, q: nat)
    requires p <= q <= |c|
    requires forall r :: p <= r < q ==> MatchAt(c, kw, r).None?
    ensures SearchFrom(c, kw, p) == SearchFrom(c, kw, q)
    decreases q - p
  {
    if p < q {
      assert MatchAt(c, kw, p).None?;
      SearchSkips(c, kw, p + 1, q);
    }
  }

  /** A capture comes from a position where the pattern matches, with no match before it. */
  lemma {:induction false} SearchFound(c: string, kw: string, p: nat, x: string)
    requires p <= |c| && SearchFrom(c, kw, p) == Some(x)
    ensures exists q :: p <= q <= |c| && MatchAt(c, kw, q) == Some(x) && forall r :: p <= r < q ==> MatchAt(c, kw, r).None?
    decreases |c| - p
  {
    if MatchAt(c, kw, p).Some? {
      assert MatchAt(c, kw, p) == Some(x);
    } else {
      SearchFound(c, kw, p + 1, x);
      var q :| p + 1 <= q <= |c| && MatchAt(c, kw, q) == Some(x) && forall r :: p + 1 <= r < q ==> MatchAt(c, kw, r).None?;
      assert forall r :: p <= r < q ==> MatchAt(c, kw, r).None?;
    }
  }

  /** `re.search` finds the leftmost match: x is captured iff some index matches with x and no earlier index matches at all. */
  lemma SearchFromLeftmost(c: string, kw: string, p: nat, x: string)
    requires p <= |c|
    ensures SearchFrom(c, kw, p) == Some(x) <==>
      exists q :: p <= q <= |c| && MatchAt(c, kw, q) == Some(x) && forall r :: p <= r < q ==> MatchAt(c, kw, r).None?
  {
    if SearchFrom(c, kw, p) == Some(x) {
      SearchFound(c, kw, p, x);
    }
    if exists q :: p <= q <= |c| && MatchAt(c, kw, q) == Some(x) && forall r :: p <= r < q ==> MatchAt(c, kw, r).None? {
      var q :| p <= q <= |c| && MatchAt(c, kw, q) == Some(x) && forall r :: p <= r < q ==> MatchAt(c, kw, r).None?;
      SearchSkips(c, kw, p, q);
    }
  }

  /** A condition that is already lower case and has no surrounding whitespace is used as it is. */
  lemma NormalCondition(c: string)
    requires forall i :: 0 <= i < |c| ==> !IsUpper(c[i])
    requires c != [] && !IsSpace(c[0]) && !IsSpace(c[|c| - 1])
    ensures Strip(Lower(c)) == c
  {
    LowerKeeps(c);
  }

  /** No quote and no upper-case letter. */
  predicate PlainQuote(x: string)
  {
    forall k :: 0 <= k < |x| ==> x[k] != '"' && !IsUpper(x[k])
  }

  /** The condition `kw "x"` as a user writes it. */
  function Condition(kw: string, x: string): string
  {
    kw + " \"" + x + "\""
  }

  /** Such a condition, in lower case, survives lower-casing and stripping. */
  lemma ConditionNormal(kw: string, x: string)
    requires kw != [] && !IsSpace(kw[0]) && PlainQuote(kw) && PlainQuote(x)
    ensures Strip(Lower(Condition(kw, x))) == Condition(kw, x)
  {
    var c := Condition(kw, x);
    forall i | 0 <= i < |c|
      ensures !IsUpper(c[i])
    {
      if i < |kw| {
        assert c[i] == kw[i];
      } else if |kw| + 2 <= i < |kw| + 2 + |x| {
        assert c[i] == x[i - |kw| - 2];
      }
    }
    assert c[0] == kw[0];
    NormalCondition(c);
  }

  /** The pattern finds x in such a condition, at its very start. */
  lemma ConditionMatches(kw: string, x: string)
    requires PlainQuote(x)
    ensures OccursAt(kw, Condition(kw, x), 0)
    ensures Search(Condition(kw, x), kw) == Some(x)
  {
    var c := Condition(kw, x);
    var quote := |kw| + 1;
    assert c[0..|kw|] == kw;
    assert IsSpace(c[|kw|]);
    assert c[quote] == '"';
    assert c[quote + 1..quote + 1 + |x|] == x;
    assert c[quote + 1 + |x|] == '"';
    assert QuotedAt(c, quote, x);
    assert PatternAt(c, kw, 0, 1, x);
    MatchAtComplete(c, kw, 0, 1, x);
  }

  /** `contains "x"` holds iff x occurs in the lower-cased content. */
  lemma ContainsCondition(x: string, content: string)
    requires PlainQuote(x)
    ensures CheckMessageCondition(Condition("contains", x), content) <==> Contains(Lower(content), x)
  {
    ConditionNormal("contains", x);
    ConditionMatches("contains", x);
  }

  /**
   * A word without quotes that occurs neither in the keyword followed by a
   * space nor in the quoted text does not occur in the condition.
   */
  lemma KeywordAbsent(kw: string, x: string, word: string)
    requires |word| > 0 && forall k :: 0 <= k < |word| ==> word[k] != '"'
    requires !Contains(kw + " ", word) && PlainQuote(x) && !Contains(x, word)
    ensures !Contains(Condition(kw, x), word)
  {
    var c := Condition(kw, x);
    var open := |kw| + 1;
    assert c[open] == '"' && c[|c| - 1] == '"';
    forall i | 0 <= i <= |c| - |word|
      ensures !OccursAt(word, c, i)
    {
      if i + |word| <= open {
        assert c[i..i + |word|] == (kw + " ")[i..i + |word|];
        assert !OccursAt(word, kw + " ", i);
      } else if i <= open {
        assert c[i..i + |word|][open - i] == '"';
      } else if i + |word| < |c| {
        assert c[i..i + |word|] == x[i - open - 1..i - open - 1 + |word|];
        assert !OccursAt(word, x, i - open - 1);
      } else {
        assert c[i..i + |word|][|c| - 1 - i] == '"';
      }
    }
  }

  /** s holds no occurrence of a word whose first letter it lacks. */
  lemma LacksFirstLetter(s: string, word: string)
    requires |word| > 0 && forall i :: 0 <= i < |s| ==> s[i] != word[0]
    ensures !Contains(s, word)
  {
    forall i | 0 <= i <= |s| - |word|
      ensures !OccursAt(word, s, i)
    {
      assert s[i..i + |word|][0] == s[i];
    }
  }

  lemma ContainsQuoteless()
    ensures forall k :: 0 <= k < |"contains"| ==> "contains"[k] != '"'
  {
  }

  lemma StartsWithQuoteless()
    ensures forall k :: 0 <= k < |"starts with"| ==> "starts with"[k] != '"'
  {
  }

  lemma EndsWithQuoteless()
    ensures forall k :: 0 <= k < |"ends with"| ==> "ends with"[k] != '"'
  {
  }

  /** "contains" does not occur in the later keywords. */
  lemma ContainsOnlyFirst()
    ensures !Contains("starts with" + " ", "contains") && !Contains("ends with" + " ", "contains")
    ensures !Contains("equals" + " ", "contains")
  {
    LacksFirstLetter("starts with" + " ", "contains");
    LacksFirstLetter("ends with" + " ", "contains");
  }

  /** Nor do the longer keywords occur in the shorter ones. */
  lemma LongerKeywordsAbsent()
    ensures !Contains("ends with" + " ", "starts with")
    ensures !Contains("equals" + " ", "starts with") && !Contains("equals" + " ", "ends with")
  {
  }

  /** `starts with "x"` holds iff the lower-cased content starts with x, when x does not itself hold the word "contains". */
  lemma StartsWithCondition(x: string, content: string)
    requires PlainQuote(x) && !Contains(x, "contains")
    ensures CheckMessageCondition(Condition("starts with", x), content) <==> IsPrefix(x, Lower(content))
  {
    ConditionNormal("starts with", x);
    ConditionMatches("starts with", x);
    ContainsQuoteless();
    ContainsOnlyFirst();
    KeywordAbsent("starts with", x, "contains");
  }

  /** `ends with "x"` holds iff the lower-cased content ends with x, when x names neither earlier keyword. */
  lemma EndsWithCondition(x: string, content: string)
    requires PlainQuote(x) && !Contains(x, "contains") && !Contains(x, "starts with")
    ensures CheckMessageCondition(Condition("ends with", x), content) <==> IsSuffix(x, Lower(content))
  {
    ConditionNormal("ends with", x);
    ConditionMatches("ends with", x);
    ContainsQuoteless();
    StartsWithQuoteless();
    ContainsOnlyFirst();
    LongerKeywordsAbsent();
    KeywordAbsent("ends with", x, "contains");
    KeywordAbsent("ends with", x, "starts with");
  }

  /** `equals "x"` holds iff the lower-cased content is x, when x names none of the earlier keywords. */
  lemma EqualsCondition(x: string, content: string)
    requires PlainQuote(x) && !Contains(x, "contains") && !Contains(x, "starts with") && !Contains(x, "ends with")
    ensures CheckMessageCondition(Condition("equals", x), content) <==> Lower(content) == x
  {
    ConditionNormal("equals", x);
    ConditionMatches("equals", x);
    ContainsQuoteless();
    StartsWithQuoteless();
    EndsWithQuoteless();
    ContainsOnlyFirst();
    LongerKeywordsAbsent();
    KeywordAbsent("equals", x, "contains");
    KeywordAbsent("equals", x, "starts with");
    KeywordAbsent("equals", x, "ends with");
  }

  lemma EqualsQuoteless()
    ensures forall k :: 0 <= k < |"equals"| ==> "equals"[k] != '"'
  {
  }

  /** The quoted text of a condition holds whatever occurs in x. */
  lemma TextInCondition(kw: string, x: string, word: string)
    requires Contains(x, word)
    ensures Contains(Condition(kw, x), word)
  {
    var i :| 0 <= i <= |x| - |word| && OccursAt(word, x, i);
    var c := Condition(kw, x);
    var at := |kw| + 2 + i;
    assert c[at..at + |word|] == x[i..i + |word|];
    assert OccursAt(word, c, at);
  }

  /**
   * In a condition `kw "x"` with no quote in kw, the pattern of a word can
   * only match with the word inside `kw `: the quote it needs after the
   * whitespace is the opening one.
   */
  lemma PatternInKeyword(kw: string, x: string, word: string, q: nat, w: nat, y: string)
    requires (forall k :: 0 <= k < |kw| ==> kw[k] != '"') && PlainQuote(x)
    ensures PatternAt(Condition(kw, x), word, q, w, y) ==> OccursAt(word, kw + " ", q)
  {
    var c := Condition(kw, x);
    if PatternAt(c, word, q, w, y) {
      var quote := q + |word| + w;
      assert forall j :: 0 <= j < |kw| ==> c[j] == kw[j];
      assert c[|kw|] == ' ';
      assert forall j :: |kw| + 2 <= j < |c| - 1 ==> c[j] == x[j - |kw| - 2];
      assert c[quote] == '"' && quote + 2 <= |c|;
      assert quote == |kw| + 1;
      assert c[q..q + |word|] == (kw + " ")[q..q + |word|];
    }
  }

  /** So a word that does not occur in `kw ` has no match in the condition, even when x holds it. */
  lemma NoMatchOutsideKeyword(kw: string, x: string, word: string)
    requires (forall k :: 0 <= k < |kw| ==> kw[k] != '"') && PlainQuote(x)
    requires !Contains(kw + " ", word)
    ensures Search(Condition(kw, x), word).None?
  {
    var c := Condition(kw, x);
    forall q | 0 <= q <= |c|
      ensures MatchAt(c, word, q).None?
    {
      var y := match MatchAt(c, word, q) case Some(v) => v case None => "";
      MatchAtIff(c, word, q, y);
      forall w: nat
        ensures !PatternAt(c, word, q, w, y)
      {
        PatternInKeyword(kw, x, word, q, w, y);
      }
    }
    var y := match Search(c, word) case Some(v) => v case None => "";
    SearchFromLeftmost(c, word, 0, y);
  }

  /**
   * As written: a `starts with` condition whose quoted text holds the word
   * "contains" is routed to the `contains` branch, whose pattern does not
   * match, so it never holds, whatever the message.
   */
  lemma KeywordInQuoteHidesBranch(x: string, content: string)
    requires PlainQuote(x) && Contains(x, "contains")
    ensures !CheckMessageCondition(Condition("starts with", x), content)
  {
    ConditionNormal("starts with", x);
    TextInCondition("starts with", x, "contains");
    StartsWithQuoteless();
    ContainsOnlyFirst();
    NoMatchOutsideKeyword("starts with", x, "contains");
  }

  /** The word "contains" is plain, occurs in itself and is its own lower case. */
  lemma ContainsWordFacts()
    ensures PlainQuote("contains") && Contains("contains", "contains")
    ensures Lower("contains") == "contains"
  {
    assert OccursAt("contains", "contains", 0);
    LowerKeeps("contains");
  }

  /** The message "contains" starts with "contains", yet `starts with "contains"` does not hold for it. */
  lemma StartsWithContainsExample()
    ensures IsPrefix("contains", Lower("contains"))
    ensures !CheckMessageCondition(Condition("starts with", "contains"), "contains")
  {
    ContainsWordFacts();
    KeywordInQuoteHidesBranch("contains", "contains");
  }

  /** Corrected: `contains "x"` holds iff x occurs in the lower-cased content, for every plain x. */
  lemma ContainsByPattern(x: string, content: string)
    requires PlainQuote(x)
    ensures CheckConditionByPattern(Condition("contains", x), content) <==> Contains(Lower(content), x)
  {
    ConditionNormal("contains", x);
    ConditionMatches("contains", x);
  }

  /** Corrected: `starts with "x"` holds iff the lower-cased content starts with x, for every plain x. */
  lemma StartsWithByPattern(x: string, content: string)
    requires PlainQuote(x)
    ensures CheckConditionByPattern(Condition("starts with", x), content) <==> IsPrefix(x, Lower(content))
  {
    ConditionNormal("starts with", x);
    ConditionMatches("starts with", x);
    StartsWithQuoteless();
    ContainsOnlyFirst();
    NoMatchOutsideKeyword("starts with", x, "contains");
  }

  /** Corrected: `ends with "x"` holds iff the lower-cased content ends with x, for every plain x. */
  lemma EndsWithByPattern(x: string, content: string)
    requires PlainQuote(x)
    ensures CheckConditionByPattern(Condition("ends with", x), content) <==> IsSuffix(x, Lower(content))
  {
    ConditionNormal("ends with", x);
    ConditionMatches("ends with", x);
    EndsWithQuoteless();
    ContainsOnlyFirst();
    LongerKeywordsAbsent();
    NoMatchOutsideKeyword("ends with", x, "contains");
    NoMatchOutsideKeyword("ends with", x, "starts with");
  }

  /** Corrected: `equals "x"` holds iff the lower-cased content is x, for every plain x. */
  lemma EqualsByPattern(x: string, content: string)
    requires PlainQuote(x)
    ensures CheckConditionByPattern(Condition("equals", x), content) <==> Lower(content) == x
  {
    ConditionNormal("equals", x);
    ConditionMatches("equals", x);
    EqualsQuoteless();
    ContainsOnlyFirst();
    LongerKeywordsAbsent();
    NoMatchOutsideKeyword("equals", x, "contains");
    NoMatchOutsideKeyword("equals", x, "starts with");
    NoMatchOutsideKeyword("equals", x, "ends with");
  }

  /** Case does not matter, in the condition or in the content. */
  lemma CaseInsensitive(condition: string, content: string)
    ensures CheckMessageCondition(condition, content) == CheckMessageCondition(Lower(condition), content)
    ensures CheckMessageCondition(condition, content) == CheckMessageCondition(condition, Lower(content))
  {
    LowerIdempotent(condition);
    LowerIdempotent(content);
  }

  /** A condition naming none of the four keywords never holds. */
  lemma NoKeywordNeverHolds(condition: string, content: string)
    requires var cond := Strip(Lower(condition));
      !Contains(cond, "contains") && !Contains(cond, "starts with") && !Contains(cond, "ends with") && !Contains(cond, "equals")
    ensures !CheckMessageCondition(condition, content)
  {
  }

  /** The examples of the integration tests: `contains "hello"` holds for "hello world", `contains "goodbye"` does not. */
  lemma ContainsExamples()
    ensures CheckMessageCondition(Condition("contains", "hello"), "hello world")
    ensures !CheckMessageCondition(Condition("contains", "goodbye"), "hello world")
  {
    PlainWords();
    GreetingsLower();
    HelloInWorld();
    NoGoodbye("hello world");
    ContainsCondition("hello", "hello world");
    ContainsCondition("goodbye", "hello world");
  }

  /** The examples of the integration tests: `starts with "hello"` holds for "hello everyone", `starts with "hi"` does not. */
  lemma StartsWithExamples()
    ensures CheckMessageCondition(Condition("starts with", "hello"), "hello everyone")
    ensures !CheckMessageCondition(Condition("starts with", "hi"), "hello everyone")
  {
    PlainWords();
    GreetingsLower();
    GreetingPrefixes();
    StartsWithCondition("hello", "hello everyone");
    StartsWithCondition("hi", "hello everyone");
  }

  lemma PlainWords()
    ensures PlainQuote("hello") && PlainQuote("goodbye") && PlainQuote("hi")
    ensures !Contains("hello", "contains") && !Contains("hi", "contains")
  {
  }

  lemma HelloInWorld()
    ensures Contains("hello world", "hello")
  {
    assert OccursAt("hello", "hello world", 0);
  }

  lemma GreetingsLower()
    ensures Lower("hello world") == "hello world" && Lower("hello everyone") == "hello everyone"
  {
    GreetingsPlain();
    LowerKeeps("hello world");
    LowerKeeps("hello everyone");
  }

  lemma GreetingsPlain()
    ensures forall i :: 0 <= i < |"hello world"| ==> !IsUpper("hello world"[i])
    ensures forall i :: 0 <= i < |"hello everyone"| ==> !IsUpper("hello everyone"[i])
  {
  }

  lemma GreetingPrefixes()
    ensures IsPrefix("hello", "hello everyone") && !IsPrefix("hi", "hello everyone")
  {
    assert "hello everyone"[..2][1] == 'e';
  }

  lemma NoGoodbye(text: string)
    requires text == "hello world"
    ensures !Contains(text, "goodbye")
  {
    forall i | 0 <= i <= |text| - 7
      ensures !OccursAt("goodbye", text, i)
    {
      assert text[i..i + 7][0] == text[i];
    }
  }
}
