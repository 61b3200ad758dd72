// Text handling around the language-model calls: the paragraph cleanup and
// fallback of the paragraph generators, `_parse_sentences` and the fallback
// script of the sentence-based generators, and the sentence splitters of the
// two live-stream scripts.

module ScriptText {
  import opened Wrappers
  import opened PyText

  /** What the HTTP request to the chat API ended in: a response with a
    * status code and (for status 200) the message content, or an exception
    * anywhere in the `try` block. */
  datatype Reply = Response(status: int, content: string) | Raised

  // ---------------------------------------------------------------------
  // Paragraph generator (digital_human_paragraph_generator.py, agent/dh_clients.py)

  predicate IsQuote(c: char) { c == '"' || c == '\'' }

  /** `content.strip()`, then `.replace('"', '').replace("'", '').strip()`. */
  function CleanContent(content: string): (r: string)
    ensures forall i :: 0 <= i < |r| ==> !IsQuote(r[i])
    ensures r == [] || (!IsSpace(r[0]) && !IsSpace(r[|r| - 1]))
  {
    var once := RemoveChar(Strip(content), '"');
    var unquoted := RemoveChar(once, '\'');
    RemoveCharKeepsAbsent(once, '\'', '"');
    StripAbsent(unquoted, '"');
    StripAbsent(unquoted, '\'');
    Strip(unquoted)
  }

  /** Removing one character never brings back another. */
  lemma {:induction false} RemoveCharKeepsAbsent(s: string, c: char, d: char)
    requires d !in s
    ensures d !in RemoveChar(s, c)
    decreases |s|
  {
    if s != [] {
      assert d !in s[1..];
      RemoveCharKeepsAbsent(s[1..], c, d);
    }
  }

  /** Stripping never brings back a character that is not there. */
  lemma StripAbsent(s: string, c: char)
    requires c !in s
    ensures c !in Strip(s)
  {
    StripBySlice(s, IsSpace);
  }

  /** Removing both quote characters is dropping every quote, keeping the
    * other characters in order. */
  lemma {:induction false} RemoveQuotesDrops(s: string)
    ensures RemoveChar(RemoveChar(s, '"'), '\'') == DropWhere(s, IsQuote)
    decreases |s|
  {
    if s != [] {
      RemoveQuotesDrops(s[1..]);
      if s[0] != '"' {
        assert RemoveChar(s, '"') == [s[0]] + RemoveChar(s[1..], '"');
        assert RemoveChar(s, '"')[1..] == RemoveChar(s[1..], '"');
      }
    }
  }

  /** Cleaning an already cleaned paragraph changes nothing. */
  lemma CleanContentIdempotent(content: string)
    ensures CleanContent(CleanContent(content)) == CleanContent(content)
  {
    var r := CleanContent(content);
    StripByNoop(r, IsSpace);
    assert forall i :: 0 <= i < |r| ==> r[i] != '"' && r[i] != '\'';
    assert '"' !in r && '\'' !in r;
  }

  const ParagraphHeads: seq<string> := [
    "宝宝们", "各位宝宝注意了", "宝宝们看过来", "亲爱的宝宝们", "宝子们"
  ]

  const ParagraphTails: seq<string> := [
    "超值优惠来啦现在下单立享折扣优惠这个价格真的太划算了数量有限先到先得喜欢的宝子赶紧点击小黄车下单吧错过就没有了这么好的机会不要犹豫了立刻抢购",
    "限时特价活动开始了原价要几十块现在只要这个价格真的是白菜价了质量绝对保证大家放心购买点击右下角小黄车立刻下单享受优惠价格",
    "今天特别优惠活动这个产品平时很难买到今天给大家争取到了最低价格机会难得数量真的不多了喜欢的宝子抓紧时间下单不要错过这个好机会",
    "超级划算的价格来了这个质量这个价格真的找不到第二家了现在下单还有额外优惠赠品相送点击小黄车马上抢购库存不多售完即止",
    "爆款推荐这个产品销量超高好评如潮现在活动价格真的太优惠了平时买不到这个价格今天给大家最大的优惠力度赶紧下单抢购吧"
  ]

  /** `_get_fallback_paragraph`: one of the five templates, chosen by the
    * `random.choice` draw `pick`, with the product text in the middle. */
  function FallbackParagraph(productInfo: string, pick: nat): (p: string)
    ensures var head := ParagraphHeads[pick % 5];
      |head| + |productInfo| <= |p| && p[|head|..|head| + |productInfo|] == productInfo
    ensures Contains(p, productInfo)
  {
    var k := pick % 5;
    var p := ParagraphHeads[k] + productInfo + ParagraphTails[k];
    assert p[|ParagraphHeads[k]|..|ParagraphHeads[k]| + |productInfo|] == productInfo;
    ContainsAt(p, productInfo, |ParagraphHeads[k]|);
    p
  }

  /** `generate_paragraph_script`: the fallback without an API key, after an
    * exception or on a status other than 200; the cleaned content otherwise. */
  function GenerateParagraph(hasKey: bool, reply: Reply, productInfo: string, pick: nat): (p: string)
    ensures hasKey && reply.Response? && reply.status == 200 ==> p == CleanContent(reply.content)
    ensures !(hasKey && reply.Response? && reply.status == 200) ==> Contains(p, productInfo)
  {
    if !hasKey then FallbackParagraph(productInfo, pick)
    else match reply
      case Raised => FallbackParagraph(productInfo, pick)
      case Response(status, content) =>
        if status == 200 then CleanContent(content) else FallbackParagraph(productInfo, pick)
  }

  // ---------------------------------------------------------------------
  // `_parse_sentences`

  predicate IsNewline(c: char) { c == '\n' }

  predicate IsBullet(c: char) { c == '•' || c == '-' || c == '*' }

  /** The length of the run of leading ASCII digits. */
  function DigitRun(s: string): (n: nat)
    ensures n <= |s| && (forall i :: 0 <= i < n ==> IsDigit(s[i])) && (n == |s| || !IsDigit(s[n]))
  {
    if s != [] && IsDigit(s[0]) then 1 + DigitRun(s[1..]) else 0
  }

  /** `re.sub(r'^\d+[\.、]\s*', '', s)`: the greedy digit run can only be
    * followed by the separator at its end, since a shorter run is followed
    * by another digit. */
  function DropNumberPrefix(s: string): (r: string)
  {
    var k := DigitRun(s);
    if 1 <= k < |s| && (s[k] == '.' || s[k] == '、') then LStrip(s[k + 1..], IsSpace) else s
  }

  /** `re.sub(r'^[•\-\*]\s*', '', s)` */
  function DropBullet(s: string): (r: string)
  {
    if |s| > 0 && IsBullet(s[0]) then LStrip(s[1..], IsSpace) else s
  }

  /** The bullet step only cuts a prefix, and what it keeps does not start
    * with a space. */
  lemma DropBulletSuffix(s: string)
    ensures var r := DropBullet(s); |r| <= |s| && r == s[|s| - |r|..]
    ensures var r := DropBullet(s); r != s ==> r == [] || !IsSpace(r[0])
  {
    if |s| > 0 && IsBullet(s[0]) {
      var t := s[1..];
      assert DropBullet(s) == t[LeadCount(t, IsSpace)..];
      assert t[LeadCount(t, IsSpace)..] == s[1 + LeadCount(t, IsSpace)..];
    }
  }

  /** One line after both substitutions; the result is stripped. */
  function CleanLine(line: string): (r: string)
    ensures r == [] || (!IsSpace(r[0]) && !IsSpace(r[|r| - 1]))
  {
    var s := Strip(DropNumberPrefix(Strip(line)));
    DropBulletSuffix(s);
    DropBullet(s)
  }

  /** The entries longer than five characters, in order. */
  function LongLines(xs: seq<string>): (r: seq<string>)
    ensures |r| <= |xs|
  {
    if xs == [] then []
    else LongLines(xs[..|xs| - 1]) + (if |xs[|xs| - 1]| > 5 then [xs[|xs| - 1]] else [])
  }

  function CleanLines(lines: seq<string>): (r: seq<string>)
    ensures |r| == |lines| && forall i :: 0 <= i < |lines| ==> r[i] == CleanLine(lines[i])
  {
    seq(|lines|, i requires 0 <= i < |lines| => CleanLine(lines[i]))
  }

  /** Python's `xs[:n]`; a negative `n` counts from the end. */
  function Take<T>(xs: seq<T>, n: int): (r: seq<T>)
    ensures r <= xs
    ensures n >= 0 ==> |r| == if n <= |xs| then n else |xs|
    ensures n < 0 ==> |r| == if |xs| + n >= 0 then |xs| + n else 0
  {
    if n >= 0 then (if n <= |xs| then xs[..n] else xs)
    else (if |xs| + n >= 0 then xs[..|xs| + n] else [])
  }

  function ParsedSentences(content: string, scriptLength: int): (r: seq<string>)
    ensures scriptLength >= 0 ==> |r| <= scriptLength
    ensures |r| <= |SplitWhere(Strip(content), IsNewline)|
  {
    Take(LongLines(CleanLines(SplitWhere(Strip(content), IsNewline))), scriptLength)
  }

  /** `_parse_sentences` (identical in the batch, optimized, MP4, DeepSeek
    * and enhanced generators). */
  method ParseSentences(content: string, scriptLength: int) returns (sentences: seq<string>)
    ensures sentences == ParsedSentences(content, scriptLength)
  {
    var lines := SplitWhere(Strip(content), IsNewline);
    var kept := KeepLongLines(lines);
    sentences := Take(kept, scriptLength);
  }

  /** The loop of `_parse_sentences`: each line cleaned, kept when longer
    * than five characters. */
  method KeepLongLines(lines: seq<string>) returns (kept: seq<string>)
    ensures kept == LongLines(CleanLines(lines))
  {
    ghost var cleaned := CleanLines(lines);
    ghost var done: seq<string> := [];
    kept := [];
    for i := 0 to |lines|
      invariant done == cleaned[..i]
      invariant kept == LongLines(done)
    {
      var line := CleanLine(lines[i]);
      LongLinesSnoc(done, line);
      if |line| > 5 {
        kept := kept + [line];
      }
      assert line == cleaned[i];
      SnocSlice(cleaned, i);
      done := done + [line];
    }
    WholePrefix(cleaned);
  }

  /** One more entry either extends the kept entries by itself or leaves
    * them as they are. */
  lemma LongLinesSnoc(xs: seq<string>, x: string)
    ensures LongLines(xs + [x]) == LongLines(xs) + (if |x| > 5 then [x] else [])
  {
    assert (xs + [x])[..|xs|] == xs;
  }

  /** Keeping distributes over concatenation: the lines of each part keep
    * their relative order. */
  lemma {:induction false} LongLinesConcat(a: seq<string>, b: seq<string>)
    ensures LongLines(a + b) == LongLines(a) + LongLines(b)
    decreases |b|
  {
    if b == [] {
      assert a + b == a;
    } else {
      var b' := b[..|b| - 1];
      assert (a + b)[..|a + b| - 1] == a + b';
      LongLinesConcat(a, b');
    }
  }

  /** Cleaning works line by line. */
  lemma CleanLinesConcat(a: seq<string>, b: seq<string>)
    ensures CleanLines(a + b) == CleanLines(a) + CleanLines(b)
  {
  }

  /** The lines of a concatenated input keep their order. */
  lemma KeptLinesConcat(a: seq<string>, b: seq<string>)
    ensures LongLines(CleanLines(a + b)) == LongLines(CleanLines(a)) + LongLines(CleanLines(b))
  {
    CleanLinesConcat(a, b);
    LongLinesConcat(CleanLines(a), CleanLines(b));
  }

  lemma {:induction false} LongLinesMembers(xs: seq<string>, x: string)
    ensures x in LongLines(xs) <==> x in xs && |x| > 5
    decreases |xs|
  {
    if xs != [] {
      var init := xs[..|xs| - 1];
      LongLinesMembers(init, x);
      assert xs == init + [xs[|xs| - 1]];
    }
  }

  /** A string is kept exactly when it is the cleaned form, longer than five
    * characters, of one of the lines. */
  lemma KeptLinesMembers(lines: seq<string>, x: string)
    ensures x in LongLines(CleanLines(lines)) <==> exists i :: 0 <= i < |lines| && CleanLine(lines[i]) == x && |x| > 5
  {
    var cleaned := CleanLines(lines);
    LongLinesMembers(cleaned, x);
    MappedMembers(lines, cleaned, CleanLine, x);
  }

  /** A value is in a pointwise image exactly when it is the image of an entry. */
  lemma MappedMembers<A, B>(xs: seq<A>, ys: seq<B>, f: A -> B, y: B)
    requires |ys| == |xs| && forall i :: 0 <= i < |xs| ==> ys[i] == f(xs[i])
    ensures y in ys <==> exists i :: 0 <= i < |xs| && f(xs[i]) == y
  {
    if y in ys {
      var i :| 0 <= i < |ys| && ys[i] == y;
      assert f(xs[i]) == y;
    }
  }

  /** The parsed script has at most `script_length` entries (for a
    * non-negative length) and every entry is longer than five characters. */
  lemma ParsedSentencesShape(content: string, scriptLength: int, k: nat)
    requires k < |ParsedSentences(content, scriptLength)|
    ensures |ParsedSentences(content, scriptLength)[k]| > 5
    ensures scriptLength >= 0 ==> |ParsedSentences(content, scriptLength)| <= scriptLength
  {
    var kept := LongLines(CleanLines(SplitWhere(Strip(content), IsNewline)));
    assert ParsedSentences(content, scriptLength)[k] == kept[k];
    LongLinesMembers(CleanLines(SplitWhere(Strip(content), IsNewline)), kept[k]);
  }

  /** A line made of a numeral, its separator and a stripped remainder
    * loses the numeral and the separator, and any spaces behind them. */
  lemma NumberPrefixRemoved(digits: string, sep: char, spaces: string, rest: string)
    requires |digits| >= 1 && forall i :: 0 <= i < |digits| ==> IsDigit(digits[i])
    requires sep == '.' || sep == '、'
    requires forall i :: 0 <= i < |spaces| ==> IsSpace(spaces[i])
    requires |rest| > 0 && !IsSpace(rest[0]) && !IsSpace(rest[|rest| - 1]) && !IsBullet(rest[0])
    ensures CleanLine(digits + [sep] + spaces + rest) == rest
  {
    var line := digits + [sep] + spaces + rest;
    assert line == digits + [sep] + (spaces + rest);
    assert line[0] == digits[0] && line[|line| - 1] == rest[|rest| - 1];
    StripNoop(line);
    NumeralDropped(digits, sep, spaces + rest);
    LStripSpaces(spaces, rest);
    StripNoop(rest);
    assert CleanLine(line) == DropBullet(rest);
  }

  /** The numeral pattern takes the digits, the separator and the spaces
    * behind it. */
  lemma NumeralDropped(digits: string, sep: char, tail: string)
    requires |digits| >= 1 && forall i :: 0 <= i < |digits| ==> IsDigit(digits[i])
    requires sep == '.' || sep == '、'
    ensures DropNumberPrefix(digits + [sep] + tail) == LStrip(tail, IsSpace)
  {
    var line := digits + [sep] + tail;
    DigitRunOf(digits, [sep] + tail);
    assert line == digits + ([sep] + tail);
    assert line[|digits|] == sep;
    assert line[|digits| + 1..] == tail;
  }

  /** The digit run of digits followed by a non-digit. */
  lemma {:induction false} DigitRunOf(digits: string, tail: string)
    requires forall i :: 0 <= i < |digits| ==> IsDigit(digits[i])
    requires tail != [] && !IsDigit(tail[0])
    ensures DigitRun(digits + tail) == |digits|
    decreases |digits|
  {
    if digits != [] {
      assert (digits + tail)[1..] == digits[1..] + tail;
      DigitRunOf(digits[1..], tail);
    } else {
      assert digits + tail == tail;
    }
  }

  /** A bullet in front of a numbered line removes only the bullet: the
    * numeral behind it stays, because the numeral pattern is tried first. */
  lemma BulletKeepsNumber(bullet: char, spaces: string, rest: string)
    requires IsBullet(bullet)
    requires forall i :: 0 <= i < |spaces| ==> IsSpace(spaces[i])
    requires |rest| > 0 && !IsSpace(rest[0]) && !IsSpace(rest[|rest| - 1])
    ensures CleanLine([bullet] + spaces + rest) == rest
  {
    var line := [bullet] + spaces + rest;
    assert line[0] == bullet && line[|line| - 1] == rest[|rest| - 1];
    StripNoop(line);
    assert DigitRun(line) == 0;
    assert DropNumberPrefix(line) == line;
    StripNoop(line);
    assert line[1..] == spaces + rest;
    LStripSpaces(spaces, rest);
    assert CleanLine(line) == DropBullet(line);
  }

  lemma {:induction false} LStripSpaces(spaces: string, rest: string)
    requires forall i :: 0 <= i < |spaces| ==> IsSpace(spaces[i])
    requires rest == [] || !IsSpace(rest[0])
    ensures LStrip(spaces + rest, IsSpace) == rest
    decreases |spaces|
  {
    if spaces == [] {
      assert spaces + rest == rest;
    } else {
      assert (spaces + rest)[1..] == spaces[1..] + rest;
      LStripSpaces(spaces[1..], rest);
    }
  }

  /** `_get_fallback_script`, identical in all sentence-based generators. */
  const FallbackScript: seq<string> := [
    "宝宝们，蜜雪冰城优惠券来啦！",
    "现在下单立享超值优惠！",
    "数量有限，先到先得！",
    "这个价格真的太划算了！",
    "快点击小黄车抢购吧！",
    "错过今天就没有这个价格了！",
    "已经有很多宝宝下单了！",
    "库存不多，抓紧时间！",
    "这么好的机会不要错过！",
    "赶紧加入购物车吧！"
  ]

  /** The fallback has ten sentences, each longer than the five characters
    * the parser demands of generated ones. */
  lemma FallbackScriptShape()
    ensures |FallbackScript| == 10
    ensures forall k :: 0 <= k < |FallbackScript| ==> |FallbackScript[k]| > 5
  {
  }

  /** `generate_live_script`: the fallback without an API key, after an
    * exception and on a status other than 200; the parsed content otherwise. */
  function GenerateScript(hasKey: bool, reply: Reply, scriptLength: int): (r: seq<string>)
    ensures hasKey && reply.Response? && reply.status == 200 ==> r == ParsedSentences(reply.content, scriptLength)
    ensures !(hasKey && reply.Response? && reply.status == 200) ==> r == FallbackScript
  {
    if !hasKey then FallbackScript
    else match reply
      case Raised => FallbackScript
      case Response(status, content) =>
        if status == 200 then ParsedSentences(content, scriptLength) else FallbackScript
  }

  /** Whatever the reply, every sentence of the script is longer than five
    * characters. */
  lemma ScriptSentencesLong(hasKey: bool, reply: Reply, scriptLength: int, k: nat)
    requires k < |GenerateScript(hasKey, reply, scriptLength)|
    ensures |GenerateScript(hasKey, reply, scriptLength)[k]| > 5
  {
    if hasKey && reply.Response? && reply.status == 200 {
      ParsedSentencesShape(reply.content, scriptLength, k);
    } else {
      FallbackScriptShape();
    }
  }

  // ---------------------------------------------------------------------
  // Sentence splitting (live_stream_system.py, live_stream_windows.py)

  predicate IsTerminator(c: char) {
    c == '。' || c == '！' || c == '？' || c == '.' || c == '!' || c == '?'
  }

  function StripAll(pieces: seq<string>): (r: seq<string>)
    ensures |r| == |pieces| && forall i :: 0 <= i < |pieces| ==> r[i] == Strip(pieces[i])
  {
    seq(|pieces|, i requires 0 <= i < |pieces| => Strip(pieces[i]))
  }

  lemma StripAllConcat(a: seq<string>, b: seq<string>)
    ensures StripAll(a + b) == StripAll(a) + StripAll(b)
  {
  }

  /** The non-empty entries, in order. */
  function NonEmpty(xs: seq<string>): (r: seq<string>)
    ensures |r| <= |xs|
  {
    if xs == [] then []
    else (if xs[0] != [] then [xs[0]] else []) + NonEmpty(xs[1..])
  }

  /** `[s.strip() for s in re.split(r'[。！？.!?]', text) if s.strip()]`:
    * `_split_text_to_sentences` / `split_text_to_sentences`. */
  function SplitSentences(text: string): (r: seq<string>)
    ensures |r| <= |SplitWhere(text, IsTerminator)|
  {
    NonEmpty(StripAll(SplitWhere(text, IsTerminator)))
  }

  lemma {:induction false} NonEmptyMembers(xs: seq<string>, x: string)
    ensures x in NonEmpty(xs) <==> x in xs && x != []
    decreases |xs|
  {
    if xs != [] {
      NonEmptyMembers(xs[1..], x);
      assert xs == [xs[0]] + xs[1..];
    }
  }

  lemma {:induction false} NonEmptyConcat(a: seq<string>, b: seq<string>)
    ensures NonEmpty(a + b) == NonEmpty(a) + NonEmpty(b)
    decreases |a|
  {
    if a == [] {
      assert a + b == b;
    } else {
      assert (a + b)[1..] == a[1..] + b;
      NonEmptyConcat(a[1..], b);
    }
  }

  /** Stripping keeps only characters of the piece. */
  lemma StripInside(p: string, j: nat)
    requires j < |Strip(p)|
    ensures exists i :: 0 <= i < |p| && Strip(p)[j] == p[i]
  {
    StripBySlice(p, IsSpace);
    var a := |p| - |LStrip(p, IsSpace)|;
    assert Strip(p)[j] == p[a + j];
  }

  /** No sentence is empty, has surrounding spaces, or holds a terminator. */
  lemma SplitSentencesClean(text: string, k: nat)
    requires k < |SplitSentences(text)|
    ensures var s := SplitSentences(text)[k];
      s != [] && !IsSpace(s[0]) && !IsSpace(s[|s| - 1])
      && forall j :: 0 <= j < |s| ==> !IsTerminator(s[j])
  {
    var pieces := SplitWhere(text, IsTerminator);
    var stripped := StripAll(pieces);
    var s := SplitSentences(text)[k];
    NonEmptyMembers(stripped, s);
    var m :| 0 <= m < |stripped| && stripped[m] == s;
    SplitPieceNoSeparator(text, IsTerminator, m);
    forall j | 0 <= j < |s| ensures !IsTerminator(s[j]) {
      StripInside(pieces[m], j);
    }
  }

  /** The sentences before a terminator come first, in order, and then
    * those after it. */
  lemma SplitSentencesAt(a: string, t: char, b: string)
    requires IsTerminator(t)
    ensures SplitSentences(a + [t] + b) == SplitSentences(a) + SplitSentences(b)
  {
    SplitWhereAt(a, t, b, IsTerminator);
    var pa := SplitWhere(a, IsTerminator);
    var pb := SplitWhere(b, IsTerminator);
    StripAllConcat(pa, pb);
    NonEmptyConcat(StripAll(pa), StripAll(pb));
  }

  /** A text without terminators is one sentence, stripped, unless it is
    * blank. */
  lemma SplitSentencesSingle(text: string)
    requires forall j :: 0 <= j < |text| ==> !IsTerminator(text[j])
    ensures SplitSentences(text) == if Strip(text) == [] then [] else [Strip(text)]
  {
    NoSeparatorOnePiece(text, IsTerminator);
    assert StripAll([text]) == [Strip(text)];
  }

  // ---------------------------------------------------------------------
  // Long-content clients

  /** `os.getenv('DEEPSEEK_API_KEY')` checked at construction of the client
    * in live_stream_system.py: a missing or empty key raises `ValueError`. */
  function ClientKey(env: Option<string>): (r: Result<string>)
    ensures r.Err? <==> env.None? || env.value == ""
    ensures r.Err? ==> r.error.ValueError?
    ensures r.Ok? ==> r.value == env.value
  {
    if env.None? || env.value == "" then Err(ValueError("DEEPSEEK_API_KEY")) else Ok(env.value)
  }

  /** `response.raise_for_status()` raises for client and server errors. */
  predicate RaisesForStatus(status: int) { 400 <= status < 600 }

  /** `DeepSeekClient.generate_long_content` in live_stream_system.py: the
    * content when the status does not raise, a fixed message naming the
    * prompt otherwise. */
  function LongContent(prompt: string, reply: Reply): (r: string)
    ensures reply.Response? && !RaisesForStatus(reply.status) ==> r == reply.content
    ensures !(reply.Response? && !RaisesForStatus(reply.status)) ==> Contains(r, prompt)
  {
    if reply.Response? && !RaisesForStatus(reply.status) then reply.content
    else
      var r := "关于" + prompt + "的内容生成失败，请稍后重试。";
      assert r[2..2 + |prompt|] == prompt;
      ContainsAt(r, prompt, 2);
      r
  }

  /** The same call in live_stream_windows.py returns "" on failure. */
  function LongContentOrEmpty(reply: Reply): (r: string)
    ensures reply.Response? && !RaisesForStatus(reply.status) ==> r == reply.content
    ensures !(reply.Response? && !RaisesForStatus(reply.status)) ==> r == ""
  {
    if reply.Response? && !RaisesForStatus(reply.status) then reply.content else ""
  }
}
