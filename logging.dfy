/** The logging facade of cdls/logging.py: the layout of `banner`, the line
    `_log_entry` composes, and the message `exception` logs. Writing to the
    console and to the log file is not modelled; each operation yields the
    text it would write. */
module Logging {
  import opened Outcomes
  import opened Text
  import opened Dates
  import opened Errors
  import opened Documents

  const DefaultBannerWidth := 80

  /** The attributes `register_logger` checks an object for. */
  const LoggingInterface: set<string> := {"info", "error", "warn", "exception"}

  /** An object handed to `register_logger`: all that matters of it is which
      attributes it has. */
  class Logger {
    const attributes: set<string>

    constructor(attributes: set<string>)
      ensures this.attributes == attributes
    {
      this.attributes := attributes;
    }

    /** Whether every `hasattr` assertion of `register_logger` holds. */
    predicate CanLog() {
      LoggingInterface <= attributes
    }
  }

  /** The rule line at the top and bottom of a banner. */
  function Border(width: int): string {
    Repeat('*', width)
  }

  /** The line just inside the borders: two stars, spaces between. */
  function EmptyLine(width: int): string {
    "*" + Repeat(' ', width - 2) + "*"
  }

  /** `"* {:^<width - 4>} *".format(text)`. */
  function BodyLine(text: string, width: int): string {
    "* " + Center(text, width - 4) + " *"
  }

  /** The words of each line of text. */
  function LineWords(texts: seq<string>): seq<seq<string>> {
    seq(|texts|, j requires 0 <= j < |texts| => Words(texts[j]))
  }

  /** `texts` lays out `words` the way the loop of `banner` does: every word
      once and in order, single spaces between the words of a line, no line of
      several words wider than `width - 4` (`width - 5` for the first line,
      whose buffer carries a leading space), and an empty line only at the
      front, exactly when the first word alone is wider than `width - 5`. */
  ghost predicate Wraps(texts: seq<string>, words: seq<string>, width: int) {
    && Flatten(LineWords(texts)) == words
    && (forall j :: 0 <= j < |texts| ==> texts[j] == Join(Words(texts[j])))
    && (forall j :: 0 <= j < |texts| && |Words(texts[j])| > 1 ==> |texts[j]| <= width - 4)
    && (texts != [] && |Words(texts[0])| > 1 ==> |texts[0]| <= width - 5)
    && (forall j :: 0 < j < |texts| ==> texts[j] != "")
    && (texts == [] <==> words == [])
    && (texts != [] ==> (texts[0] == "" <==> |words[0]| > width - 5))
  }

  /** A line `line` (the first one when `first`) was broken because the
      first word of the line `next` did not fit after it: the line, plus the
      leading space a non-empty first line carries in the buffer, plus a space
      and that word, exceed `width - 4`. */
  predicate Blocked(line: string, first: bool, next: string, width: int) {
    next != "" && |line| + (if first && line != "" then 1 else 0) + WordLength(next) + 1 > width - 4
  }

  /** The lines `texts` are broken only where the loop of `banner` breaks
      them: each line but the last is followed by a line whose first word
      would not have fit on it. */
  ghost predicate BreaksLate(texts: seq<string>, width: int) {
    forall j {:trigger texts[j]} :: 0 < j < |texts| ==> Blocked(texts[j - 1], j == 1, texts[j], width)
  }

  /** A space in front of a non-empty text without surrounding whitespace is
      what `strip()` removes. */
  lemma StripLeadingSpace(x: string)
    requires x != "" && Trimmed(x)
    ensures Strip(" " + x) == x
  {
    var s := " " + x;
    assert s[1..] == x;
    assert LeadingSpaces(s) == 1;
    assert TrailingSpaces(x) == 0;
  }

  /** The buffer of the loop in `banner`: the words of the current line
      joined by spaces, with a space in front while the first line is being
      filled. */
  predicate IsBuffer(buf: string, cur: seq<string>, first: bool) {
    && (forall k :: 0 <= k < |cur| ==> IsWord(cur[k]))
    && (!first ==> cur != [])
    && buf == if first && cur != [] then " " + Join(cur) else Join(cur)
  }

  /** Flushing the buffer yields the current words joined by spaces. */
  lemma FlushedText(buf: string, cur: seq<string>, first: bool)
    requires IsBuffer(buf, cur, first)
    ensures Strip(buf) == Join(cur) && Words(Strip(buf)) == cur && |Strip(buf)| <= |buf|
    ensures buf == "" <==> cur == []
  {
    JoinTrimmed(cur);
    if first && cur != [] {
      StripLeadingSpace(Join(cur));
    }
    WordsJoin(cur);
  }

  /** A word has nothing to strip. */
  lemma StripWord(w: string)
    requires IsWord(w)
    ensures Strip(w) == w
  {
    assert !IsSpace(w[0]) && !IsSpace(w[|w| - 1]);
  }

  /** Adding a word to the buffer adds it to the current words. */
  lemma AppendedWord(buf: string, cur: seq<string>, first: bool, word: string)
    requires IsBuffer(buf, cur, first) && IsWord(word)
    ensures Strip(word) == word
    ensures IsBuffer(buf + " " + word, cur + [word], first)
  {
    StripWord(word);
    var cur' := cur + [word];
    assert forall k :: 0 <= k < |cur'| ==> IsWord(cur'[k]);
    JoinSnoc(cur, word);
    if cur == [] {
      assert buf + " " + word == " " + Join(cur');
    } else if first {
      assert buf + " " + word == " " + Join(cur');
    } else {
      assert buf + " " + word == Join(cur');
    }
  }

  /** A buffer restarted with one word holds just that word. */
  lemma RestartedBuffer(word: string)
    requires IsWord(word)
    ensures IsBuffer(word, [word], false)
  {
    var cur := [word];
    assert |cur| == 1 && cur[0] == word;
  }

  /** `text` is the line `banner` makes of the words `group`. */
  predicate LineOf(text: string, group: seq<string>, width: int) {
    text == Join(group) && Words(text) == group && (|group| > 1 ==> |text| <= width - 4)
  }

  lemma PrefixNext<T>(s: seq<T>, i: nat)
    requires i < |s|
    ensures s[..i + 1] == s[..i] + [s[i]]
  {
  }

  /** The lines `texts` are made of the word groups `groups`, and only the
      first group may be empty. */
  ghost predicate Lines(texts: seq<string>, groups: seq<seq<string>>, width: int) {
    && |groups| == |texts|
    && (forall j :: 0 <= j < |texts| ==> LineOf(texts[j], groups[j], width))
    && (forall j :: 0 < j < |texts| ==> groups[j] != [])
  }

  lemma LinesSnoc(texts: seq<string>, groups: seq<seq<string>>, text: string, group: seq<string>, width: int)
    requires Lines(texts, groups, width) && LineOf(text, group, width)
    requires texts != [] ==> group != []
    ensures Lines(texts + [text], groups + [group], width)
  {
    var t2, g2 := texts + [text], groups + [group];
    forall j | 0 <= j < |t2|
      ensures LineOf(t2[j], g2[j], width) && (j > 0 ==> g2[j] != [])
    {
      if j < |texts| {
        assert t2[j] == texts[j] && g2[j] == groups[j];
      }
    }
  }

  /** The state of the loop of `banner` after `i` words: the flushed lines
      `texts` made of the word groups `groups`, the words `cur` of the line
      being filled, and the buffer `buf` that holds them. */
  ghost predicate Filling(texts: seq<string>, groups: seq<seq<string>>, cur: seq<string>, buf: string,
                          words: seq<string>, i: int, width: int) {
    && 0 <= i <= |words|
    && Flatten(groups) + cur == words[..i]
    && Lines(texts, groups, width)
    && IsBuffer(buf, cur, texts == [])
    && (i > 0 ==> cur != [])
    && (|cur| > 1 ==> |buf| <= width - 4)
    && (texts == [] && i > 0 ==> |words[0]| <= width - 5)
    && (texts != [] ==> (groups[0] == [] <==> |words[0]| > width - 5))
    && (texts != [] && |groups[0]| > 1 ==> |texts[0]| <= width - 5)
  }

  /** The lines flushed so far and the words `cur` of the line being
      filled: every flushed line was followed by a word that did not fit on
      it. */
  ghost predicate Greedy(texts: seq<string>, cur: seq<string>, width: int) {
    && BreaksLate(texts, width)
    && (texts != [] ==> cur != [] && Blocked(texts[|texts| - 1], |texts| == 1, cur[0], width))
  }

  /** Adding a word to a non-empty line being filled keeps its first word. */
  lemma GreedyAppend(texts: seq<string>, cur: seq<string>, word: string, width: int)
    requires Greedy(texts, cur, width)
    ensures Greedy(texts, cur + [word], width)
  {
    if texts != [] {
      assert (cur + [word])[0] == cur[0];
    }
  }

  /** A line whose first word did not fit after the last flushed line keeps
      every line broken late. */
  lemma BreaksLateSnoc(texts: seq<string>, text: string, width: int)
    requires texts != [] ==> Blocked(texts[|texts| - 1], |texts| == 1, text, width)
    requires BreaksLate(texts, width)
    ensures BreaksLate(texts + [text], width)
  {
    var t2 := texts + [text];
    forall j | 0 < j < |t2|
      ensures Blocked(t2[j - 1], j == 1, t2[j], width)
    {
      assert t2[j - 1] == texts[j - 1];
      if j < |texts| {
        assert t2[j] == texts[j];
      }
    }
  }

  /** Flushing the buffer because `word` does not fit after it records that
      the new line was broken for that word. */
  lemma GreedyFlush(texts: seq<string>, cur: seq<string>, buf: string, word: string, width: int)
    requires Greedy(texts, cur, width) && IsWord(word)
    requires IsBuffer(buf, cur, texts == []) && |buf| + |word| + 1 > width - 4
    ensures Greedy(texts + [Strip(buf)], [word], width)
  {
    var line := Strip(buf);
    FlushedText(buf, cur, texts == []);
    JoinTrimmed(cur);
    if cur != [] {
      WordLengthOfJoin(cur);
      if texts == [] {
        StripLeadingSpace(Join(cur));
      }
    }
    BreaksLateSnoc(texts, line, width);
    WordLengthOfWord(word, "");
    assert word + "" == word;
    assert |buf| == |line| + (if texts == [] && line != "" then 1 else 0);
    assert (texts + [line])[|texts|] == line;
  }

  /** Flushing the last buffer leaves every line broken late. */
  lemma GreedyFinal(texts: seq<string>, cur: seq<string>, buf: string, width: int)
    requires Greedy(texts, cur, width) && IsBuffer(buf, cur, texts == [])
    ensures BreaksLate(if buf != "" then texts + [Strip(buf)] else texts, width)
  {
    FlushedText(buf, cur, texts == []);
    if buf != "" {
      BreaksLateSnoc(texts, Strip(buf), width);
    }
  }

  /** A word that fits joins the line being filled. */
  lemma AppendStep(texts: seq<string>, groups: seq<seq<string>>, cur: seq<string>, buf: string,
                   words: seq<string>, i: int, width: int)
    requires forall k :: 0 <= k < |words| ==> IsWord(words[k])
    requires Filling(texts, groups, cur, buf, words, i, width) && i < |words|
    requires |buf| + |words[i]| + 1 <= width - 4
    ensures Strip(words[i]) == words[i]
    ensures Filling(texts, groups, cur + [words[i]], buf + " " + words[i], words, i + 1, width)
  {
    PrefixNext(words, i);
    AppendedWord(buf, cur, texts == [], words[i]);
  }

  /** Flushing the first line leaves it empty exactly when the first word
      alone does not fit. */
  lemma FirstLineFlushed(groups: seq<seq<string>>, cur: seq<string>, buf: string, words: seq<string>, i: int, width: int)
    requires 0 <= i < |words| && Flatten(groups) + cur == words[..i]
    requires IsBuffer(buf, cur, true) && (i > 0 ==> cur != []) && (i > 0 ==> |words[0]| <= width - 5)
    requires |buf| + |words[i]| + 1 > width - 4
    ensures cur == [] <==> |words[0]| > width - 5
  {
    if i == 0 {
      assert cur == [] && buf == "";
    }
  }

  /** A word that does not fit flushes the line and starts the next one. */
  lemma FlushStep(texts: seq<string>, groups: seq<seq<string>>, cur: seq<string>, buf: string,
                  words: seq<string>, i: int, width: int)
    requires forall k :: 0 <= k < |words| ==> IsWord(words[k])
    requires Filling(texts, groups, cur, buf, words, i, width) && i < |words|
    requires |buf| + |words[i]| + 1 > width - 4
    ensures Filling(texts + [Strip(buf)], groups + [cur], [words[i]], words[i], words, i + 1, width)
  {
    FlushedText(buf, cur, texts == []);
    LinesSnoc(texts, groups, Strip(buf), cur, width);
    assert Flatten(groups + [cur]) + [words[i]] == words[..i + 1] by {
      FlattenAppend(groups, cur);
      PrefixNext(words, i);
    }
    RestartedBuffer(words[i]);
    if texts == [] {
      FirstLineFlushed(groups, cur, buf, words, i, width);
      assert cur != [] ==> |buf| == |Strip(buf)| + 1;
    } else {
      assert (groups + [cur])[0] == groups[0];
    }
  }

  /** Once every word is read, flushing a non-empty buffer completes the
      layout. */
  lemma FinalStep(texts: seq<string>, groups: seq<seq<string>>, cur: seq<string>, buf: string,
                  words: seq<string>, width: int)
    requires Filling(texts, groups, cur, buf, words, |words|, width)
    ensures Wraps(if buf != "" then texts + [Strip(buf)] else texts, words, width)
  {
    assert words[..|words|] == words;
    FlushedText(buf, cur, texts == []);
    if buf != "" {
      FlattenAppend(groups, cur);
      LinesSnoc(texts, groups, Strip(buf), cur, width);
      if texts != [] {
        assert (groups + [cur])[0] == groups[0];
      } else {
        assert |buf| == |Strip(buf)| + 1;
      }
      WrapsOfLines(texts + [Strip(buf)], groups + [cur], words, width);
    } else {
      WrapsOfLines(texts, groups, words, width);
    }
  }

  /** The whole state of the loop of `banner` after `i` words: the layout so
      far, and the lines broken late. */
  ghost predicate Wrapping(texts: seq<string>, groups: seq<seq<string>>, cur: seq<string>, buf: string,
                           words: seq<string>, i: int, width: int) {
    Filling(texts, groups, cur, buf, words, i, width) && Greedy(texts, cur, width)
  }

  /** One iteration of the loop of `banner` keeps its state. */
  lemma WrappingStep(texts: seq<string>, groups: seq<seq<string>>, cur: seq<string>, buf: string,
                     words: seq<string>, i: int, width: int)
    requires forall k :: 0 <= k < |words| ==> IsWord(words[k])
    requires Wrapping(texts, groups, cur, buf, words, i, width) && i < |words|
    ensures Strip(words[i]) == words[i]
    ensures |buf| + |words[i]| + 1 <= width - 4 ==>
              Wrapping(texts, groups, cur + [words[i]], buf + " " + words[i], words, i + 1, width)
    ensures |buf| + |words[i]| + 1 > width - 4 ==>
              Wrapping(texts + [Strip(buf)], groups + [cur], [words[i]], words[i], words, i + 1, width)
  {
    StripWord(words[i]);
    if |buf| + |words[i]| + 1 <= width - 4 {
      AppendStep(texts, groups, cur, buf, words, i, width);
      GreedyAppend(texts, cur, words[i], width);
    } else {
      FlushStep(texts, groups, cur, buf, words, i, width);
      GreedyFlush(texts, cur, buf, words[i], width);
    }
  }

  /** Flushing what is left once every word is read completes the layout. */
  lemma WrappingDone(texts: seq<string>, groups: seq<seq<string>>, cur: seq<string>, buf: string,
                     words: seq<string>, width: int)
    requires Wrapping(texts, groups, cur, buf, words, |words|, width)
    ensures var final := if buf != "" then texts + [Strip(buf)] else texts;
      Wraps(final, words, width) && BreaksLate(final, width)
  {
    FinalStep(texts, groups, cur, buf, words, width);
    GreedyFinal(texts, cur, buf, width);
  }

  /** The texts `banner` centres in its body lines: the message's words, with
      a line flushed whenever the next word would not fit in `width - 4`
      characters. On the first line the buffer starts with a space, so that
      line has one character less to fill. */
  method BannerTexts(message: string, width: int) returns (texts: seq<string>)
    ensures Wraps(texts, Words(message), width) && BreaksLate(texts, width)
  {
    var words := Words(message);
    texts := [];
    var buf := "";
    ghost var groups: seq<seq<string>> := [];
    ghost var cur: seq<string> := [];
    for i := 0 to |words|
      invariant Wrapping(texts, groups, cur, buf, words, i, width)
    {
      var word := words[i];
      WrappingStep(texts, groups, cur, buf, words, i, width);
      if |buf| + |word| + 1 <= width - 4 {
        buf := buf + " " + Strip(word);
        cur := cur + [word];
      } else {
        texts := texts + [Strip(buf)];
        groups := groups + [cur];
        buf := word;
        cur := [word];
      }
    }
    WrappingDone(texts, groups, cur, buf, words, width);
    if buf != "" {
      texts := texts + [Strip(buf)];
    }
  }

  /** Lines made of groups of words, the groups making up `words` in order,
      lay out `words`. */
  lemma WrapsOfLines(texts: seq<string>, groups: seq<seq<string>>, words: seq<string>, width: int)
    requires Lines(texts, groups, width) && Flatten(groups) == words
    requires texts == [] <==> words == []
    requires texts != [] ==> (groups[0] == [] <==> |words[0]| > width - 5)
    requires texts != [] && |groups[0]| > 1 ==> |texts[0]| <= width - 5
    ensures Wraps(texts, words, width)
  {
    assert LineWords(texts) == groups;
  }

  /** `banner(level, message, width=width)`: the messages it logs, in order,
      and whether it raised. `body` holds the texts of the body lines. With a
      width below 4 the line template asks for a negative field width, and
      Python rejects the first body line with a `ValueError`. */
  method Banner(message: string, width: Option<int>) returns (body: seq<string>, lines: seq<string>, o: Outcome<BuiltinKind>)
    ensures var w := width.GetOr(DefaultBannerWidth);
      && Wraps(body, Words(message), w) && BreaksLate(body, w)
      && |lines| >= 2 && lines[0] == Border(w) && lines[1] == EmptyLine(w)
      && (o.Fail? <==> w < 4 && body != [])
      && (o.Fail? ==> o.error == ValueError && |lines| == 2)
      && (o.Pass? ==> lines == [Border(w), EmptyLine(w)]
                                + seq(|body|, j requires 0 <= j < |body| => BodyLine(body[j], w))
                                + [EmptyLine(w), Border(w)])
  {
    var w := width.GetOr(DefaultBannerWidth);
    lines := [Border(w), EmptyLine(w)];
    body := BannerTexts(message, w);
    if w < 4 && body != [] {
      return body, lines, Fail(ValueError);
    }
    lines := lines + seq(|body|, j requires 0 <= j < |body| => BodyLine(body[j], w)) + [EmptyLine(w), Border(w)];
    o := Pass;
  }

  /** Every line of a banner at least 4 wide is exactly `width` characters,
      except a body line holding a single word too long for it. */
  lemma {:induction false} BannerLineWidths(body: seq<string>, words: seq<string>, w: int)
    requires w >= 4 && Wraps(body, words, w)
    ensures var lines := [Border(w), EmptyLine(w)]
                         + seq(|body|, j requires 0 <= j < |body| => BodyLine(body[j], w))
                         + [EmptyLine(w), Border(w)];
      forall j :: 0 <= j < |lines| && |lines[j]| != w ==>
        2 <= j < |lines| - 2 && |Words(body[j - 2])| == 1 && |body[j - 2]| > w - 4
  {
    var lines := [Border(w), EmptyLine(w)]
                 + seq(|body|, j requires 0 <= j < |body| => BodyLine(body[j], w))
                 + [EmptyLine(w), Border(w)];
    forall j | 0 <= j < |lines| && |lines[j]| != w
      ensures 2 <= j < |lines| - 2 && |Words(body[j - 2])| == 1 && |body[j - 2]| > w - 4
    {
      if 2 <= j < |lines| - 2 {
        var t := body[j - 2];
        assert lines[j] == BodyLine(t, w);
        assert t == Join(Words(t)) && (|Words(t)| > 1 ==> |t| <= w - 4);
        BodyLineWidth(t, w);
      }
    }
  }

  /** A body line is `width` wide unless its text is a single word too long
      for it. */
  lemma BodyLineWidth(t: string, w: int)
    requires w >= 4 && t == Join(Words(t)) && (|Words(t)| > 1 ==> |t| <= w - 4)
    ensures |BodyLine(t, w)| != w ==> |Words(t)| == 1 && |t| > w - 4
  {
    if |Words(t)| == 0 {
      assert t == "";
    }
  }

  /** The context `_log_entry` tags a line with: an explicit `context` in
      place of the calling function's name, prefixed by `tag` and a dot when
      the tag is truthy. */
  function Context(caller: string, context: Option<string>, tag: Option<string>): string {
    var c := context.GetOr(caller);
    if TruthyText(tag) then tag.value + "." + c else c
  }

  /** Given an explicit context, the caller's name plays no part. */
  lemma ExplicitContextIgnoresCaller(caller1: string, caller2: string, context: string, tag: Option<string>)
    ensures Context(caller1, Some(context), tag) == Context(caller2, Some(context), tag)
    ensures !TruthyText(tag) ==> Context(caller1, Some(context), tag) == context
  {
  }

  /** A truthy tag comes first, then a dot, then the untagged context; a falsy
      tag leaves the context as it is. */
  lemma TaggedContext(caller: string, context: Option<string>, tag: Option<string>)
    ensures var c := Context(caller, context, tag);
      var plain := Context(caller, context, None);
      && (TruthyText(tag) ==> |c| == |tag.value| + 1 + |plain| && c[..|tag.value|] == tag.value
                              && c[|tag.value|] == '.' && c[|tag.value| + 1..] == plain)
      && (!TruthyText(tag) ==> c == plain)
  {
  }

  /** The format of `_generate_timestamp`. */
  const TimestampFormat := "%m/%d %H:%M:%S,%f"

  function Timestamp(now: DateTime): string {
    Strftime(TimestampFormat, now)
  }

  /** `LOGGING_FORMAT` of cdls/config.py, `"{timestamp} {level:>5} - {message}"`,
      filled in. */
  function Template(timestamp: string, level: string, message: string): string {
    timestamp + " " + PadLeft(level, 5) + " - " + message
  }

  /** The timestamp opens a formatted line, the level follows after one space,
      right-aligned in at least five characters, then `" - "` and the message,
      which ends the line. */
  lemma TemplateFields(timestamp: string, level: string, message: string)
    ensures var r := Template(timestamp, level, message);
      var n := |timestamp| + 1 + (if |level| >= 5 then |level| else 5);
      && |r| == n + 3 + |message|
      && r[..|timestamp|] == timestamp && r[|timestamp|] == ' '
      && r[n - |level|..n] == level
      && (forall i :: |timestamp| + 1 <= i < n - |level| ==> r[i] == ' ')
      && r[n..n + 3] == " - " && r[n + 3..] == message
  {
    var p := PadLeft(level, 5);
    var r := Template(timestamp, level, message);
    var n := |timestamp| + 1 + |p|;
    assert r == timestamp + " " + p + " - " + message;
    assert r[|timestamp| + 1..n] == p;
    assert r[n - |level|..n] == p[|p| - |level|..];
    assert r[n..n + 3] == " - ";
    assert r[n + 3..] == message;
  }

  /** `"[{0}:] {1}".format(context, message.strip())`. */
  function EntryMessage(context: string, message: string): string {
    "[" + context + ":] " + Strip(message)
  }

  /** The context in brackets, followed by a colon and a space, then the
      stripped message. */
  lemma EntryMessageFields(context: string, message: string)
    ensures var em := EntryMessage(context, message);
      var n := |context|;
      && |em| == n + 4 + |Strip(message)|
      && em[0] == '[' && em[1..n + 1] == context && em[n + 1..n + 4] == ":] "
      && em[n + 4..] == Strip(message)
  {
    var m := Strip(message);
    var em := EntryMessage(context, message);
    assert em == "[" + context + ":] " + m;
    assert em[1..|context| + 1] == context;
    assert em[|context| + 1..|context| + 4] == ":] ";
    assert em[|context| + 4..] == m;
  }

  /** The line `_log_entry` formats before stripping it, stamped with
      `timestamp` (what `_generate_timestamp` returns, `Timestamp` of the
      current time), for a message whose `format` arguments are already
      substituted: the level is stripped and upper-cased, the message goes
      after its context. */
  function RawLine(timestamp: string, level: string, message: string, caller: string,
                   context: Option<string>, tag: Option<string>): string {
    Template(timestamp, Upper(Strip(level)), EntryMessage(Context(caller, context, tag), message))
  }

  /** The line `_log_entry` prints and appends to the log file. */
  function LogLine(timestamp: string, level: string, message: string, caller: string,
                   context: Option<string>, tag: Option<string>): string {
    Strip(RawLine(timestamp, level, message, caller, context, tag))
  }

  /** A timestamp starts with the month's first digit. */
  lemma TimestampStartsWithDigit(now: DateTime)
    ensures Timestamp(now) != "" && IsDigit(Timestamp(now)[0])
  {
    var rest := "/%d %H:%M:%S,%f";
    assert TimestampFormat == ['%', 'm'] + rest;
    StrftimeField('m', rest, now);
  }

  /** A line that starts and ends with a non-space character is left as it
      is by `strip()`. */
  lemma TemplateTrimmed(timestamp: string, level: string, message: string)
    requires timestamp != "" && !IsSpace(timestamp[0]) && message != "" && !IsSpace(message[|message| - 1])
    ensures Strip(Template(timestamp, level, message)) == Template(timestamp, level, message)
  {
    var s := Template(timestamp, level, message);
    assert s == timestamp + " " + PadLeft(level, 5) + " - " + message;
    assert s[0] == timestamp[0];
    assert s[|s| - 1] == message[|message| - 1];
  }

  /** A line stamped with a timestamp that starts with a digit, for a message
      that is not blank, is printed as it is formatted. */
  lemma LogLineUnstripped(timestamp: string, level: string, message: string, caller: string,
                          context: Option<string>, tag: Option<string>)
    requires timestamp != "" && IsDigit(timestamp[0]) && Strip(message) != ""
    ensures LogLine(timestamp, level, message, caller, context, tag)
            == RawLine(timestamp, level, message, caller, context, tag)
  {
    var m := Strip(message);
    var em := EntryMessage(Context(caller, context, tag), message);
    assert em[|em| - 1] == m[|m| - 1] by {
      EntryMessageFields(Context(caller, context, tag), message);
    }
    TemplateTrimmed(timestamp, Upper(Strip(level)), em);
  }

  /** The message `exception(e)` writes: `str(e)`, followed by a blank line
      and the details when `e.details()` has any. */
  function ExceptionMessage(e: CdlsError, dumps: Json -> string, pformat: ConfigNode -> string): (r: string)
    ensures |r| >= |Message(e)| && r[..|Message(e)|] == Message(e)
    ensures Details(e, dumps, pformat).None? <==> |r| == |Message(e)|
    ensures Details(e, dumps, pformat).Some? ==> r[|Message(e)|..] == "\n\n" + Details(e, dumps, pformat).value
  {
    var m, details := Message(e), Details(e, dumps, pformat);
    if details.Some? then
      var r := m + ("\n\n" + details.value);
      assert r[..|m|] == m && r[|m|..] == "\n\n" + details.value;
      r
    else m
  }
}
