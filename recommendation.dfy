/** The `generateBookRecommendation` HTTP function: request validation, the
    instruction sent to the text model, the parser of the model's reply with its
    title fallbacks, the feed entry it stores and the response it sends. */
module Recommendation {
  import opened Js

  const TitlePrefix := "Book Title:"
  const AuthorPrefix := "Author:"
  const GenrePrefix := "Genre:"
  const SummaryPrefix := "Summary:"
  const WhyPrefix := "Why this book:"

  const LongFallbackTitle := "AI Suggestion"
  const LongFallbackWhy := "AI generated response."
  const ShortFallbackTitle := "Could Not Generate Recommendation"
  const ShortFallbackWhy := "The AI could not provide a specific book in the expected format."

  const MethodNotAllowed := "Method Not Allowed"
  const BadRequestMessage := "Bad Request: Missing prompt, userId, or appId."
  const FailureMessage := "Failed to generate recommendation. Please try again later."
  const FeedEntryType := "ai_recommendation"

  /** The record built from the reply; a field is `None` while no line has set it. */
  datatype Recommendation = Recommendation(
    bookTitle: Option<string>,
    author: Option<string>,
    genre: Option<string>,
    summary: Option<string>,
    whyThisBook: Option<string>)

  const NoFields := Recommendation(None, None, None, None, None)

  /** The JSON body of a request; a missing or non-string field is `None`. */
  datatype Body = Body(prompt: Option<string>, userId: Option<string>, appId: Option<string>)

  datatype Request = Request(httpMethod: string, body: Option<Body>)

  /** What the text model returns: its reply text, or an error with its message. */
  datatype ModelReply = Reply(text: string) | ModelError(message: string)

  /** What adding the feed entry to the document database does. */
  datatype WriteOutcome = Written | WriteFailed(message: string)

  /** A stored feed entry; its server-assigned timestamp is not modelled. */
  datatype FeedEntry = FeedEntry(
    collection: string,
    entryType: string,
    userPrompt: string,
    aiResponse: Recommendation)

  datatype ResponseBody =
    | PlainText(text: string)
    | SuccessJson(success: bool, recommendation: Recommendation, rawAIResponse: string)
    | FailureJson(success: bool, message: string, error: string)

  datatype Response = Response(status: nat, body: ResponseBody)

  /** One invocation: the instruction sent to the model (if any), the feed entry
      whose write was attempted (if any), and the response sent. */
  datatype HandlerRun = HandlerRun(
    modelPrompt: Option<string>,
    feedWrite: Option<FeedEntry>,
    response: Response)

  // ---------------------------------------------------------------- validation

  /** The body is present and `prompt`, `userId` and `appId` are all truthy. */
  predicate HasRequiredFields(body: Option<Body>) {
    body.Some? && Truthy(body.value.prompt) && Truthy(body.value.userId) && Truthy(body.value.appId)
  }

  // ---------------------------------------------------------------- the instruction

  const PromptIntro := "As a friendly and knowledgeable AI book recommender for \"AI BookNest\", "
    + "provide a single book recommendation based on the following user input: \""

  const PromptTemplate := "\".\n"
    + "Format your response as follows:\n"
    + "Book Title: [Title of the book]\n"
    + "Author: [Author's Name]\n"
    + "Genre: [Primary Genre]\n"
    + "Summary: [A concise, engaging summary (2-4 sentences)]\n"
    + "Why this book: [1-2 sentences explaining why it fits the user's prompt]\n\n"
    + "If the input is vague, try to infer. "
    + "If it's completely irrelevant to books, politely ask for book-related input."

  /** The single instruction sent to the model, embedding the user's prompt. */
  function FullPrompt(userPrompt: string): (r: string)
    ensures |r| == |PromptIntro| + |userPrompt| + |PromptTemplate|
    ensures r[..|PromptIntro|] == PromptIntro
    ensures r[|PromptIntro|..|PromptIntro| + |userPrompt|] == userPrompt
    ensures r[|PromptIntro| + |userPrompt|..] == PromptTemplate
  {
    PromptIntro + userPrompt + PromptTemplate
  }

  /** The feed collection of a user inside an application namespace. */
  function FeedCollection(appId: string, userId: string): string {
    "artifacts/" + appId + "/users/" + userId + "/feedItems"
  }

  // ---------------------------------------------------------------- the parser, as a specification

  /** The reply split at "\n", without the lines whose trim is empty. */
  function NonBlank(lines: seq<string>): (r: seq<string>)
    ensures forall k :: 0 <= k < |r| ==> Trim(r[k]) != ""
    ensures |r| <= |lines|
  {
    if lines == [] then []
    else if Trim(lines[0]) == "" then NonBlank(lines[1..])
    else [lines[0]] + NonBlank(lines[1..])
  }

  function ReplyLines(text: string): seq<string> {
    NonBlank(Split(text, '\n'))
  }

  /** The value a recognised line carries: the rest of the line, trimmed. */
  function FieldValue(line: string, prefix: string): string
    requires StartsWith(line, prefix)
  {
    Trim(line[|prefix|..])
  }

  /** The value carried by the last line that starts with `prefix`, if any. */
  function LastMatch(lines: seq<string>, prefix: string): Option<string> {
    if lines == [] then None
    else
      var last := lines[|lines| - 1];
      if StartsWith(last, prefix) then Some(FieldValue(last, prefix))
      else LastMatch(lines[..|lines| - 1], prefix)
  }

  /** Every field as the last line carrying its prefix sets it. */
  function Scan(lines: seq<string>): Recommendation {
    Recommendation(
      LastMatch(lines, TitlePrefix),
      LastMatch(lines, AuthorPrefix),
      LastMatch(lines, GenrePrefix),
      LastMatch(lines, SummaryPrefix),
      LastMatch(lines, WhyPrefix))
  }

  /** The two title fallbacks applied to the scanned record. */
  function WithFallback(text: string, rec: Recommendation): (r: Recommendation)
    ensures Truthy(r.bookTitle)
    ensures Truthy(rec.bookTitle) ==> r == rec
    ensures r.author == rec.author && r.genre == rec.genre
    ensures !Truthy(rec.bookTitle) ==> Truthy(r.summary) || text == ""
  {
    if !Truthy(rec.bookTitle) && |text| > 50 then
      rec.(bookTitle := Some(LongFallbackTitle),
           summary := Some(Substring(text, 0, 100) + "..."),
           whyThisBook := Some(LongFallbackWhy))
    else if !Truthy(rec.bookTitle) then
      rec.(bookTitle := Some(ShortFallbackTitle),
           summary := Some(text),
           whyThisBook := Some(ShortFallbackWhy))
    else rec
  }

  /** The record the function builds from the model's reply. */
  function Parse(text: string): (r: Recommendation)
    ensures Truthy(r.bookTitle)
    ensures r.author == LastMatch(ReplyLines(text), AuthorPrefix) && r.genre == LastMatch(ReplyLines(text), GenrePrefix)
  {
    WithFallback(text, Scan(ReplyLines(text)))
  }

  // ---------------------------------------------------------------- the parser, as the program runs it

  /** A line that starts with none of the five prefixes. */
  predicate Unrecognised(line: string) {
    !StartsWith(line, TitlePrefix) && !StartsWith(line, AuthorPrefix) && !StartsWith(line, GenrePrefix)
    && !StartsWith(line, SummaryPrefix) && !StartsWith(line, WhyPrefix)
  }

  /** The five prefixes begin with five different characters, so a line beginning with
      one prefix begins with none of the other four. */
  lemma PrefixesExclusive(line: string)
    ensures StartsWith(line, TitlePrefix) ==>
      (!StartsWith(line, AuthorPrefix) && !StartsWith(line, GenrePrefix)
       && !StartsWith(line, SummaryPrefix) && !StartsWith(line, WhyPrefix))
    ensures StartsWith(line, AuthorPrefix) ==>
      (!StartsWith(line, GenrePrefix) && !StartsWith(line, SummaryPrefix) && !StartsWith(line, WhyPrefix))
    ensures StartsWith(line, GenrePrefix) ==> !StartsWith(line, SummaryPrefix) && !StartsWith(line, WhyPrefix)
    ensures StartsWith(line, SummaryPrefix) ==> !StartsWith(line, WhyPrefix)
  {
    if StartsWith(line, TitlePrefix) { StartsWithFirstChar(line, TitlePrefix); }
    if StartsWith(line, AuthorPrefix) { StartsWithFirstChar(line, AuthorPrefix); }
    if StartsWith(line, GenrePrefix) { StartsWithFirstChar(line, GenrePrefix); }
    if StartsWith(line, SummaryPrefix) { StartsWithFirstChar(line, SummaryPrefix); }
  }

  /** Scanning one more line changes only the field whose prefix it carries. */
  lemma ScanStep(lines: seq<string>, line: string)
    ensures StartsWith(line, TitlePrefix) ==>
      Scan(lines + [line]) == Scan(lines).(bookTitle := Some(FieldValue(line, TitlePrefix)))
    ensures StartsWith(line, AuthorPrefix) ==>
      Scan(lines + [line]) == Scan(lines).(author := Some(FieldValue(line, AuthorPrefix)))
    ensures StartsWith(line, GenrePrefix) ==>
      Scan(lines + [line]) == Scan(lines).(genre := Some(FieldValue(line, GenrePrefix)))
    ensures StartsWith(line, SummaryPrefix) ==>
      Scan(lines + [line]) == Scan(lines).(summary := Some(FieldValue(line, SummaryPrefix)))
    ensures StartsWith(line, WhyPrefix) ==>
      Scan(lines + [line]) == Scan(lines).(whyThisBook := Some(FieldValue(line, WhyPrefix)))
    ensures Unrecognised(line) ==> Scan(lines + [line]) == Scan(lines)
  {
    var ls := lines + [line];
    assert ls[..|ls| - 1] == lines;
    assert ls[|ls| - 1] == line;
    PrefixesExclusive(line);
  }

  /** The line pass of the parser: every non-blank line that starts with one of the
      prefixes overwrites that field with the rest of the line, trimmed. */
  method ScanLines(lines: seq<string>) returns (rec: Recommendation)
    ensures rec == Scan(lines)
  {
    rec := NoFields;
    var i := 0;
    while i < |lines|
      invariant 0 <= i <= |lines|
      invariant rec == Scan(lines[..i])
    {
      var line := lines[i];
      ScanStep(lines[..i], line);
      assert lines[..i + 1] == lines[..i] + [line];
      if StartsWith(line, TitlePrefix) {
        ReplaceFirstAtStart(line, TitlePrefix);
        rec := rec.(bookTitle := Some(Trim(ReplaceFirst(line, TitlePrefix, ""))));
      } else if StartsWith(line, AuthorPrefix) {
        ReplaceFirstAtStart(line, AuthorPrefix);
        rec := rec.(author := Some(Trim(ReplaceFirst(line, AuthorPrefix, ""))));
      } else if StartsWith(line, GenrePrefix) {
        ReplaceFirstAtStart(line, GenrePrefix);
        rec := rec.(genre := Some(Trim(ReplaceFirst(line, GenrePrefix, ""))));
      } else if StartsWith(line, SummaryPrefix) {
        ReplaceFirstAtStart(line, SummaryPrefix);
        rec := rec.(summary := Some(Trim(ReplaceFirst(line, SummaryPrefix, ""))));
      } else if StartsWith(line, WhyPrefix) {
        ReplaceFirstAtStart(line, WhyPrefix);
        rec := rec.(whyThisBook := Some(Trim(ReplaceFirst(line, WhyPrefix, ""))));
      }
      i := i + 1;
    }
    assert lines[..i] == lines;
  }

  /** The parser as written: a pass over the non-blank lines that overwrites a field
      whenever a line starts with its prefix, followed by the two title fallbacks. */
  method ParseReply(text: string) returns (rec: Recommendation)
    ensures rec == Parse(text)
  {
    var lines := NonBlank(Split(text, '\n'));
    rec := ScanLines(lines);
    if !Truthy(rec.bookTitle) && |text| > 50 {
      rec := rec.(bookTitle := Some(LongFallbackTitle));
      rec := rec.(summary := Some(Substring(text, 0, 100) + "..."));
      rec := rec.(whyThisBook := Some(LongFallbackWhy));
    } else if !Truthy(rec.bookTitle) {
      rec := rec.(bookTitle := Some(ShortFallbackTitle));
      rec := rec.(summary := Some(text));
      rec := rec.(whyThisBook := Some(ShortFallbackWhy));
    }
  }

  // ---------------------------------------------------------------- properties of the parser

  /** `LastMatch` is `None` exactly when no line starts with the prefix. */
  lemma {:induction false} LastMatchNoneIff(lines: seq<string>, prefix: string)
    ensures LastMatch(lines, prefix).None? <==> forall j :: 0 <= j < |lines| ==> !StartsWith(lines[j], prefix)
  {
    if lines != [] {
      var init := lines[..|lines| - 1];
      LastMatchNoneIff(init, prefix);
      assert forall j :: 0 <= j < |init| ==> init[j] == lines[j];
    }
  }

  /** The last line that starts with the prefix decides the field: lines after it do
      not carry the prefix, and lines before it do not matter. */
  lemma {:induction false} LastMatchWins(lines: seq<string>, prefix: string, k: nat)
    requires k < |lines| && StartsWith(lines[k], prefix)
    requires forall j :: k < j < |lines| ==> !StartsWith(lines[j], prefix)
    ensures LastMatch(lines, prefix) == Some(FieldValue(lines[k], prefix))
    decreases |lines|
  {
    if k < |lines| - 1 {
      var init := lines[..|lines| - 1];
      assert forall j :: 0 <= j < |init| ==> init[j] == lines[j];
      LastMatchWins(init, prefix, k);
    }
  }

  /** Conversely, a parsed value always comes from the last line carrying the prefix. */
  lemma {:induction false} LastMatchSource(lines: seq<string>, prefix: string) returns (k: nat)
    requires LastMatch(lines, prefix).Some?
    ensures k < |lines| && StartsWith(lines[k], prefix)
    ensures LastMatch(lines, prefix) == Some(FieldValue(lines[k], prefix))
    ensures forall j :: k < j < |lines| ==> !StartsWith(lines[j], prefix)
  {
    var last := |lines| - 1;
    if StartsWith(lines[last], prefix) {
      k := last;
    } else {
      var init := lines[..last];
      k := LastMatchSource(init, prefix);
      assert init[k] == lines[k];
      forall j | k < j < |lines| ensures !StartsWith(lines[j], prefix) {
        if j < last { assert init[j] == lines[j]; }
      }
    }
  }

  /** A line that carries none of the five prefixes has no effect, wherever it stands. */
  lemma {:induction false} UnrecognisedLineIgnored(before: seq<string>, line: string, after: seq<string>)
    requires Unrecognised(line)
    ensures Scan(before + [line] + after) == Scan(before + after)
    decreases |after|
  {
    if after == [] {
      assert before + [line] + after == before + [line];
      assert before + after == before;
      ScanStep(before, line);
    } else {
      var a0 := after[..|after| - 1];
      var x := after[|after| - 1];
      UnrecognisedLineIgnored(before, line, a0);
      assert before + [line] + after == (before + [line] + a0) + [x];
      assert before + after == (before + a0) + [x];
      ScanStep(before + [line] + a0, x);
      ScanStep(before + a0, x);
    }
  }

  /** A blank line carries no prefix, so dropping the blank lines changes nothing:
      the scan of the filtered lines equals the scan of all of them. */
  lemma {:induction false} BlankLinesIrrelevant(lines: seq<string>)
    ensures Scan(NonBlank(lines)) == Scan(lines)
  {
    if lines != [] {
      var l0, rest := lines[0], lines[1..];
      BlankLinesIrrelevant(rest);
      assert lines == [] + [l0] + rest;
      assert lines == [l0] + rest;
      if Trim(l0) == "" {
        BlankNotRecognised(l0);
        UnrecognisedLineIgnored([], l0, rest);
        assert [] + rest == rest;
      } else {
        ScanPrepend(l0, NonBlank(rest), rest);
      }
    }
  }

  /** A line whose trim is empty starts with none of the prefixes. */
  lemma BlankNotRecognised(line: string)
    requires Trim(line) == ""
    ensures Unrecognised(line)
  {
    TrimEmptyIffBlank(line);
    if StartsWith(line, TitlePrefix) { StartsWithFirstChar(line, TitlePrefix); }
    if StartsWith(line, AuthorPrefix) { StartsWithFirstChar(line, AuthorPrefix); }
    if StartsWith(line, GenrePrefix) { StartsWithFirstChar(line, GenrePrefix); }
    if StartsWith(line, SummaryPrefix) { StartsWithFirstChar(line, SummaryPrefix); }
    if StartsWith(line, WhyPrefix) { StartsWithFirstChar(line, WhyPrefix); }
  }

  /** Two line lists with the same scan keep the same scan after a common first line. */
  lemma {:induction false} ScanPrepend(l0: string, xs: seq<string>, ys: seq<string>)
    requires Scan(xs) == Scan(ys)
    ensures Scan([l0] + xs) == Scan([l0] + ys)
  {
    ScanPrependField(l0, xs, ys, TitlePrefix);
    ScanPrependField(l0, xs, ys, AuthorPrefix);
    ScanPrependField(l0, xs, ys, GenrePrefix);
    ScanPrependField(l0, xs, ys, SummaryPrefix);
    ScanPrependField(l0, xs, ys, WhyPrefix);
  }

  lemma {:induction false} ScanPrependField(l0: string, xs: seq<string>, ys: seq<string>, p: string)
    requires LastMatch(xs, p) == LastMatch(ys, p)
    ensures LastMatch([l0] + xs, p) == LastMatch([l0] + ys, p)
  {
    LastMatchPrepend(l0, xs, p);
    LastMatchPrepend(l0, ys, p);
  }

  /** A first line matters only when no later line carries the prefix. */
  lemma {:induction false} LastMatchPrepend(l0: string, xs: seq<string>, p: string)
    ensures LastMatch([l0] + xs, p) ==
      if LastMatch(xs, p).Some? then LastMatch(xs, p)
      else if StartsWith(l0, p) then Some(FieldValue(l0, p)) else None
    decreases |xs|
  {
    var ls := [l0] + xs;
    if xs != [] {
      assert ls[..|ls| - 1] == [l0] + xs[..|xs| - 1];
      assert ls[|ls| - 1] == xs[|xs| - 1];
      LastMatchPrepend(l0, xs[..|xs| - 1], p);
    } else {
      assert ls == [l0];
      assert ls[..0] == [];
    }
  }

  /** After the fallbacks the title is always present and non-empty. */
  lemma ParseTitleNonEmpty(text: string)
    ensures Parse(text).bookTitle.Some? && Parse(text).bookTitle.value != ""
  {
  }

  /** With a non-empty parsed title no fallback runs: every field is its parsed value,
      or absent when no line carried it. */
  lemma ParseWithTitle(text: string)
    requires Truthy(LastMatch(ReplyLines(text), TitlePrefix))
    ensures Parse(text) == Scan(ReplyLines(text))
  {
  }

  /** Without a non-empty title, a reply longer than 50 characters gives the
      "AI Suggestion" record: the first 100 characters plus "..." as summary, the fixed
      note as reason, and the parsed author and genre kept. */
  lemma ParseLongFallback(text: string)
    requires !Truthy(LastMatch(ReplyLines(text), TitlePrefix)) && |text| > 50
    ensures var r := Parse(text);
      && r.bookTitle == Some(LongFallbackTitle)
      && r.summary == Some(text[..if |text| < 100 then |text| else 100] + "...")
      && r.whyThisBook == Some(LongFallbackWhy)
      && r.author == LastMatch(ReplyLines(text), AuthorPrefix)
      && r.genre == LastMatch(ReplyLines(text), GenrePrefix)
  {
    SubstringPrefix(text, 100);
  }

  /** Without a non-empty title, a reply of at most 50 characters gives the
      "Could Not Generate Recommendation" record with the whole reply as summary. */
  lemma ParseShortFallback(text: string)
    requires !Truthy(LastMatch(ReplyLines(text), TitlePrefix)) && |text| <= 50
    ensures var r := Parse(text);
      && r.bookTitle == Some(ShortFallbackTitle)
      && r.summary == Some(text)
      && r.whyThisBook == Some(ShortFallbackWhy)
      && r.author == LastMatch(ReplyLines(text), AuthorPrefix)
      && r.genre == LastMatch(ReplyLines(text), GenrePrefix)
  {
  }

  /** A value as a well-formed reply would carry it: on one line, with no white space
      around it. */
  predicate CleanValue(v: string) {
    '\n' !in v && (v == [] || (!IsWhitespace(v[0]) && !IsWhitespace(v[|v| - 1])))
  }

  /** A line of the requested format: the prefix, a space and the value. */
  function FieldLine(prefix: string, v: string): string {
    prefix + " " + v
  }

  /** A reply in exactly the format the instruction asks for. */
  function FormattedReply(title: string, author: string, genre: string, summary: string, why: string): string {
    Join([FieldLine(TitlePrefix, title), FieldLine(AuthorPrefix, author), FieldLine(GenrePrefix, genre),
          FieldLine(SummaryPrefix, summary), FieldLine(WhyPrefix, why)], "\n")
  }

  /** A non-blank line without a newline. */
  predicate GoodLine(line: string) {
    '\n' !in line && Trim(line) != ""
  }

  /** The five prefixes are non-empty, start with a visible character and hold no newline. */
  predicate GoodPrefix(prefix: string) {
    |prefix| > 0 && !IsWhitespace(prefix[0]) && '\n' !in prefix
  }

  lemma PrefixesGood()
    ensures GoodPrefix(TitlePrefix) && GoodPrefix(AuthorPrefix) && GoodPrefix(GenrePrefix)
    ensures GoodPrefix(SummaryPrefix) && GoodPrefix(WhyPrefix)
  {
  }

  /** A formatted line is non-blank, contains no newline and carries `v`. */
  lemma FormattedLine(prefix: string, v: string)
    requires GoodPrefix(prefix) && CleanValue(v)
    ensures GoodLine(FieldLine(prefix, v))
    ensures StartsWith(FieldLine(prefix, v), prefix) && FieldValue(FieldLine(prefix, v), prefix) == v
  {
    FormattedLineCarries(prefix, v);
    FormattedLineGood(prefix, v);
  }

  lemma FormattedLineCarries(prefix: string, v: string)
    requires CleanValue(v)
    ensures StartsWith(FieldLine(prefix, v), prefix) && FieldValue(FieldLine(prefix, v), prefix) == v
  {
    var line := prefix + " " + v;
    assert line[..|prefix|] == prefix;
    assert line[|prefix|..] == " " + v;
    TrimSkipsLeading(" ", v);
    TrimOfTrimmed(v);
  }

  lemma FormattedLineGood(prefix: string, v: string)
    requires GoodPrefix(prefix) && CleanValue(v)
    ensures GoodLine(FieldLine(prefix, v))
  {
    var line := prefix + " " + v;
    assert line[0] == prefix[0];
    assert !AllWhitespace(line);
    TrimEmptyIffBlank(line);
    assert forall c :: c in line ==> c in prefix || c == ' ' || c in v;
  }

  /** Filtering lines that are all non-blank leaves them as they are. */
  lemma {:induction false} NonBlankOfNonBlank(lines: seq<string>)
    requires forall k :: 0 <= k < |lines| ==> Trim(lines[k]) != ""
    ensures NonBlank(lines) == lines
  {
    if lines != [] {
      NonBlankOfNonBlank(lines[1..]);
    }
  }

  /** Joining non-blank, newline-free lines with "\n" and parsing the lines back out
      gives the same lines. */
  lemma ReplyLinesOfJoin(lines: seq<string>)
    requires |lines| >= 1
    requires forall k :: 0 <= k < |lines| ==> GoodLine(lines[k])
    ensures ReplyLines(Join(lines, "\n")) == lines
  {
    SplitJoin(lines, '\n');
    NonBlankOfNonBlank(lines);
  }

  /** Five good lines joined with "\n" parse back into the same five lines. */
  lemma ReplyLinesOfFive(lines: seq<string>)
    requires |lines| == 5
    requires GoodLine(lines[0]) && GoodLine(lines[1]) && GoodLine(lines[2]) && GoodLine(lines[3]) && GoodLine(lines[4])
    ensures ReplyLines(Join(lines, "\n")) == lines
  {
    forall k | 0 <= k < |lines| ensures GoodLine(lines[k]) {
      if k == 0 {} else if k == 1 {} else if k == 2 {} else if k == 3 {} else { assert k == 4; }
    }
    ReplyLinesOfJoin(lines);
  }

  /** Appending a line that carries a prefix sets that field of the scan. */
  lemma ScanAppend(xs: seq<string>, line: string, ys: seq<string>, r: Recommendation)
    requires ys == xs + [line] && Scan(xs) == r
    ensures StartsWith(line, TitlePrefix) ==> Scan(ys) == r.(bookTitle := Some(FieldValue(line, TitlePrefix)))
    ensures StartsWith(line, AuthorPrefix) ==> Scan(ys) == r.(author := Some(FieldValue(line, AuthorPrefix)))
    ensures StartsWith(line, GenrePrefix) ==> Scan(ys) == r.(genre := Some(FieldValue(line, GenrePrefix)))
    ensures StartsWith(line, SummaryPrefix) ==> Scan(ys) == r.(summary := Some(FieldValue(line, SummaryPrefix)))
    ensures StartsWith(line, WhyPrefix) ==> Scan(ys) == r.(whyThisBook := Some(FieldValue(line, WhyPrefix)))
  {
    ScanStep(xs, line);
  }

  /** The sequence displays of up to five lines, built one line at a time. */
  lemma Snoc(l0: string, l1: string, l2: string, l3: string, l4: string)
    ensures [] + [l0] == [l0] && [l0] + [l1] == [l0, l1] && [l0, l1] + [l2] == [l0, l1, l2]
    ensures [l0, l1, l2] + [l3] == [l0, l1, l2, l3] && [l0, l1, l2, l3] + [l4] == [l0, l1, l2, l3, l4]
  {
  }

  /** Five lines carrying the five prefixes in order scan into those five values. */
  lemma ScanOfFive(l0: string, l1: string, l2: string, l3: string, l4: string)
    requires StartsWith(l0, TitlePrefix) && StartsWith(l1, AuthorPrefix) && StartsWith(l2, GenrePrefix)
    requires StartsWith(l3, SummaryPrefix) && StartsWith(l4, WhyPrefix)
    ensures Scan([l0, l1, l2, l3, l4]) == Recommendation(
      Some(FieldValue(l0, TitlePrefix)), Some(FieldValue(l1, AuthorPrefix)), Some(FieldValue(l2, GenrePrefix)),
      Some(FieldValue(l3, SummaryPrefix)), Some(FieldValue(l4, WhyPrefix)))
  {
    var r0 := NoFields.(bookTitle := Some(FieldValue(l0, TitlePrefix)));
    var r1 := r0.(author := Some(FieldValue(l1, AuthorPrefix)));
    var r2 := r1.(genre := Some(FieldValue(l2, GenrePrefix)));
    var r3 := r2.(summary := Some(FieldValue(l3, SummaryPrefix)));
    Snoc(l0, l1, l2, l3, l4);
    ScanAppend([], l0, [l0], NoFields);
    ScanAppend([l0], l1, [l0, l1], r0);
    ScanAppend([l0, l1], l2, [l0, l1, l2], r1);
    ScanAppend([l0, l1, l2], l3, [l0, l1, l2, l3], r2);
    ScanAppend([l0, l1, l2, l3], l4, [l0, l1, l2, l3, l4], r3);
  }

  /** Parsing a reply in the requested format recovers exactly the five values. */
  lemma ParseFormattedReply(title: string, author: string, genre: string, summary: string, why: string)
    requires CleanValue(title) && CleanValue(author) && CleanValue(genre) && CleanValue(summary) && CleanValue(why)
    requires title != ""
    ensures Parse(FormattedReply(title, author, genre, summary, why))
      == Recommendation(Some(title), Some(author), Some(genre), Some(summary), Some(why))
  {
    PrefixesGood();
    FormattedLine(TitlePrefix, title);
    FormattedLine(AuthorPrefix, author);
    FormattedLine(GenrePrefix, genre);
    FormattedLine(SummaryPrefix, summary);
    FormattedLine(WhyPrefix, why);
    ParseFiveLines(FieldLine(TitlePrefix, title), FieldLine(AuthorPrefix, author), FieldLine(GenrePrefix, genre),
      FieldLine(SummaryPrefix, summary), FieldLine(WhyPrefix, why), title, author, genre, summary, why);
  }

  /** Five good lines carrying the five prefixes in order, joined with "\n", parse into
      the values they carry. */
  lemma ParseFiveLines(l0: string, l1: string, l2: string, l3: string, l4: string,
                       v0: string, v1: string, v2: string, v3: string, v4: string)
    requires GoodLine(l0) && GoodLine(l1) && GoodLine(l2) && GoodLine(l3) && GoodLine(l4)
    requires StartsWith(l0, TitlePrefix) && FieldValue(l0, TitlePrefix) == v0 && v0 != ""
    requires StartsWith(l1, AuthorPrefix) && FieldValue(l1, AuthorPrefix) == v1
    requires StartsWith(l2, GenrePrefix) && FieldValue(l2, GenrePrefix) == v2
    requires StartsWith(l3, SummaryPrefix) && FieldValue(l3, SummaryPrefix) == v3
    requires StartsWith(l4, WhyPrefix) && FieldValue(l4, WhyPrefix) == v4
    ensures Parse(Join([l0, l1, l2, l3, l4], "\n")) == Recommendation(Some(v0), Some(v1), Some(v2), Some(v3), Some(v4))
  {
    ReplyLinesOfLines(l0, l1, l2, l3, l4);
    ScanOfFive(l0, l1, l2, l3, l4);
    ParseWithTitle(Join([l0, l1, l2, l3, l4], "\n"));
  }

  lemma ReplyLinesOfLines(l0: string, l1: string, l2: string, l3: string, l4: string)
    requires GoodLine(l0) && GoodLine(l1) && GoodLine(l2) && GoodLine(l3) && GoodLine(l4)
    ensures ReplyLines(Join([l0, l1, l2, l3, l4], "\n")) == [l0, l1, l2, l3, l4]
  {
    var lines := [l0, l1, l2, l3, l4];
    assert lines[0] == l0 && lines[1] == l1 && lines[2] == l2 && lines[3] == l3 && lines[4] == l4;
    ReplyLinesOfFive(lines);
  }

  // ---------------------------------------------------------------- the handler

  /** One invocation of the function, with the model's reply and the outcome of the
      feed write as inputs. */
  function Handle(req: Request, model: ModelReply, write: WriteOutcome): (r: HandlerRun)
    ensures r.response.status in {200, 400, 405, 500}
    ensures r.feedWrite.Some? ==> r.modelPrompt.Some? && model.Reply?
    ensures r.response.status == 200 <==> r.modelPrompt.Some? && model.Reply? && write.Written?
  {
    if req.httpMethod != "POST" then
      HandlerRun(None, None, Response(405, PlainText(MethodNotAllowed)))
    else if !HasRequiredFields(req.body) then
      HandlerRun(None, None, Response(400, PlainText(BadRequestMessage)))
    else
      var body := req.body.value;
      var instruction := FullPrompt(body.prompt.value);
      match model
      case ModelError(m) =>
        HandlerRun(Some(instruction), None, Response(500, FailureJson(false, FailureMessage, m)))
      case Reply(text) =>
        var rec := Parse(text);
        var entry := FeedEntry(FeedCollection(body.appId.value, body.userId.value), FeedEntryType, body.prompt.value, rec);
        match write
        case WriteFailed(m) =>
          HandlerRun(Some(instruction), Some(entry), Response(500, FailureJson(false, FailureMessage, m)))
        case Written =>
          HandlerRun(Some(instruction), Some(entry), Response(200, SuccessJson(true, rec, text)))
  }

  /** Any method other than POST gets 405 whatever the body, and nothing else happens. */
  lemma NonPostRejected(req: Request, model: ModelReply, write: WriteOutcome, other: Option<Body>)
    requires req.httpMethod != "POST"
    ensures Handle(req, model, write) == HandlerRun(None, None, Response(405, PlainText(MethodNotAllowed)))
    ensures Handle(req.(body := other), model, write) == Handle(req, model, write)
  {
  }

  /** A POST without a truthy prompt, userId or appId gets 400 with the fixed message;
      the model is not called and nothing is written. */
  lemma MissingFieldRejected(req: Request, model: ModelReply, write: WriteOutcome)
    requires req.httpMethod == "POST" && !HasRequiredFields(req.body)
    ensures Handle(req, model, write) == HandlerRun(None, None, Response(400, PlainText(BadRequestMessage)))
  {
  }

  /** A valid request whose reply is parsed and stored gets 200 with the parsed record and
      the unmodified reply; the stored entry is tagged, carries the user's prompt and the
      same record, in the caller's feed, and the record's title is non-empty. */
  lemma ValidRequestAnswered(req: Request, text: string)
    requires req.httpMethod == "POST" && HasRequiredFields(req.body)
    ensures var run := Handle(req, Reply(text), Written);
      var b := req.body.value;
      && run.modelPrompt == Some(FullPrompt(b.prompt.value))
      && run.response == Response(200, SuccessJson(true, Parse(text), text))
      && run.feedWrite == Some(FeedEntry(FeedCollection(b.appId.value, b.userId.value), FeedEntryType, b.prompt.value, Parse(text)))
      && Truthy(run.response.body.recommendation.bookTitle)
  {
    ParseTitleNonEmpty(text);
  }

  /** A model failure and a feed-write failure give the same 500 answer, differing only in
      the error text; after a model failure nothing is written. */
  lemma FailuresIndistinguishable(req: Request, text: string, m: string)
    requires req.httpMethod == "POST" && HasRequiredFields(req.body)
    ensures Handle(req, ModelError(m), Written).response == Response(500, FailureJson(false, FailureMessage, m))
    ensures Handle(req, ModelError(m), Written).feedWrite == None
    ensures Handle(req, Reply(text), WriteFailed(m)).response == Handle(req, ModelError(m), Written).response
  {
  }
}
