/**
 * The two tools of the MCP server: the greeting generator
 * (generate_welcome_message) and the knowledge-base formatter
 * (get_knowledge_base), with the file load given as an input.
 */
module Server {
  import opened Options

  // ---------------------------------------------------------------------------
  // Text helpers
  // ---------------------------------------------------------------------------

  /** `part` occurs in `s` starting at index `i`. */
  predicate OccursAt(s: string, part: string, i: int) {
    0 <= i && i + |part| <= |s| && s[i..i + |part|] == part
  }

  ghost predicate Contains(s: string, part: string) {
    exists i :: OccursAt(s, part, i)
  }

  lemma ContainsMiddle(before: string, part: string, after: string)
    ensures Contains(before + part + after, part)
  {
    var s := before + part + after;
    assert s[|before|..|before| + |part|] == part;
    assert OccursAt(s, part, |before|);
  }

  /** Regrouping a concatenation; called where the solver would otherwise search for it. */
  lemma AppendAssoc(a: string, b: string, c: string)
    ensures (a + b) + c == a + (b + c)
  {
  }

  predicate IsUpper(c: char) {
    'A' <= c <= 'Z'
  }

  function LowerChar(c: char): char {
    if IsUpper(c) then (c as int - 'A' as int + 'a' as int) as char else c
  }

  /** str.lower() on ASCII letters; every other character is kept. */
  function Lower(s: string): (r: string)
    ensures |r| == |s|
    ensures forall i :: 0 <= i < |s| ==> !IsUpper(r[i]) && (IsUpper(s[i]) || r[i] == s[i])
    ensures forall i :: 0 <= i < |s| && IsUpper(s[i]) ==> r[i] as int == s[i] as int - 'A' as int + 'a' as int
  {
    seq(|s|, i requires 0 <= i < |s| => LowerChar(s[i]))
  }

  /** Lowering twice is lowering once. */
  lemma LowerIdempotent(s: string)
    ensures Lower(Lower(s)) == Lower(s)
  {
    var once := Lower(s);
    forall i | 0 <= i < |s|
      ensures Lower(once)[i] == once[i]
    {
      assert Lower(once)[i] == LowerChar(once[i]);
    }
  }

  /** A string without upper-case letters is its own lower-case form. */
  lemma LowerOfLower(s: string)
    requires forall i :: 0 <= i < |s| ==> !IsUpper(s[i])
    ensures Lower(s) == s
  {
    forall i | 0 <= i < |s|
      ensures Lower(s)[i] == s[i]
    {
      assert Lower(s)[i] == LowerChar(s[i]);
    }
  }

  // ---------------------------------------------------------------------------
  // generate_welcome_message
  // ---------------------------------------------------------------------------

  const NO_NAME_GREETING := "Hello! Please provide a name for a personalized greeting."

  function LoginGreeting(name: string): string {
    "Welcome back, " + name + "! Ready to dive into your MCP dashboard?"
  }

  function EventGreeting(name: string): string {
    "Hello " + name + "! Excited to see you at the MCP event today!"
  }

  function SupportGreeting(name: string): string {
    "Hi " + name + ", the MCP support team is here to assist you!"
  }

  function DefaultGreeting(name: string): string {
    "Greetings, " + name + "! Welcome to the MCP server!"
  }

  /** The greeting for `userName` in `context`, which is compared case-insensitively. */
  function GenerateWelcomeMessage(userName: string, context: string := "general"): (r: string)
    ensures userName == "" ==> r == NO_NAME_GREETING
    ensures userName != "" ==> Contains(r, userName)
  {
    if userName == "" then NO_NAME_GREETING
    else
      var c := Lower(context);
      if c == "login" then ContainsMiddle("Welcome back, ", userName, "! Ready to dive into your MCP dashboard?"); LoginGreeting(userName)
      else if c == "event" then ContainsMiddle("Hello ", userName, "! Excited to see you at the MCP event today!"); EventGreeting(userName)
      else if c == "support" then ContainsMiddle("Hi ", userName, ", the MCP support team is here to assist you!"); SupportGreeting(userName)
      else ContainsMiddle("Greetings, ", userName, "! Welcome to the MCP server!"); DefaultGreeting(userName)
  }

  /** The context is matched ignoring case: a context and its lower-case form greet alike. */
  lemma WelcomeIgnoresCase(userName: string, context: string)
    ensures GenerateWelcomeMessage(userName, context) == GenerateWelcomeMessage(userName, Lower(context))
  {
    LowerIdempotent(context);
  }

  /** The four templates are told apart by their first two characters. */
  lemma TemplatesDistinct(a: string, b: string)
    ensures LoginGreeting(a)[0] == 'W' && EventGreeting(a)[0] == 'H' && SupportGreeting(a)[0] == 'H'
    ensures DefaultGreeting(a)[0] == 'G' && EventGreeting(a)[1] == 'e' && SupportGreeting(a)[1] == 'i'
    ensures LoginGreeting(a) != EventGreeting(b) && LoginGreeting(a) != SupportGreeting(b)
    ensures LoginGreeting(a) != DefaultGreeting(b) && EventGreeting(a) != SupportGreeting(b)
    ensures EventGreeting(a) != DefaultGreeting(b) && SupportGreeting(a) != DefaultGreeting(b)
  {
    assert LoginGreeting(b)[0] == 'W' && EventGreeting(b)[0] == 'H' && SupportGreeting(b)[0] == 'H';
    assert DefaultGreeting(b)[0] == 'G' && EventGreeting(b)[1] == 'e' && SupportGreeting(b)[1] == 'i';
  }

  /**
   * For a non-empty name, each template is produced exactly when the
   * lower-cased context selects it; every other context gets the default.
   */
  lemma WelcomeDispatch(userName: string, context: string)
    requires userName != ""
    ensures var r, c := GenerateWelcomeMessage(userName, context), Lower(context);
      && (r == LoginGreeting(userName) <==> c == "login")
      && (r == EventGreeting(userName) <==> c == "event")
      && (r == SupportGreeting(userName) <==> c == "support")
      && (r == DefaultGreeting(userName) <==> c != "login" && c != "event" && c != "support")
  {
    TemplatesDistinct(userName, userName);
  }

  /** The default context "general" gets the default greeting. */
  lemma WelcomeDefaultContext(userName: string)
    requires userName != ""
    ensures GenerateWelcomeMessage(userName) == DefaultGreeting(userName)
  {
    LowerOfLower("general");
  }

  /** The two examples of the tool's documentation, and the upper-case spelling of the first. */
  lemma WelcomeExamples()
    ensures GenerateWelcomeMessage("Alice", "login") == LoginGreeting("Alice")
    ensures GenerateWelcomeMessage("Alice", "LOGIN") == LoginGreeting("Alice")
    ensures GenerateWelcomeMessage("Bob", "event") == EventGreeting("Bob")
  {
    LowerOfLower("login");
    LowerOfLower("event");
    assert Lower("LOGIN") == "login" by {
      forall i | 0 <= i < 5 ensures Lower("LOGIN")[i] == "login"[i] {
        assert Lower("LOGIN")[i] == LowerChar("LOGIN"[i]);
      }
    }
  }

  // ---------------------------------------------------------------------------
  // Decimal rendering of the item numbers
  // ---------------------------------------------------------------------------

  predicate IsDigit(c: char) {
    '0' <= c <= '9'
  }

  function DigitChar(d: nat): (c: char)
    requires d < 10
    ensures IsDigit(c) && c as int - '0' as int == d
  {
    ('0' as int + d) as char
  }

  /** Python's `f"{n}"` for a natural number. */
  function Decimal(n: nat): string {
    if n < 10 then [DigitChar(n)] else Decimal(n / 10) + [DigitChar(n % 10)]
  }

  /** The rendering is a non-empty string of digits without a leading zero. */
  lemma {:induction false} DecimalDigits(n: nat)
    ensures var r := Decimal(n); |r| >= 1 && (forall k :: 0 <= k < |r| ==> IsDigit(r[k])) && (|r| > 1 ==> r[0] != '0')
  {
    if n >= 10 {
      DecimalDigits(n / 10);
    }
  }

  /** The number a string of digits denotes. */
  function DecimalValue(s: string): int {
    if |s| == 0 then 0 else DecimalValue(s[..|s| - 1]) * 10 + (s[|s| - 1] as int - '0' as int)
  }

  /** Rendering a number and reading it back gives the number. */
  lemma {:induction false} DecimalRoundTrip(n: nat)
    ensures DecimalValue(Decimal(n)) == n
  {
    var s := Decimal(n);
    if n >= 10 {
      assert s[..|s| - 1] == Decimal(n / 10);
      DecimalRoundTrip(n / 10);
    } else {
      assert s[..0] == [];
    }
  }

  /** Distinct item numbers are rendered differently. */
  lemma DecimalInjective(m: nat, n: nat)
    requires Decimal(m) == Decimal(n)
    ensures m == n
  {
    DecimalRoundTrip(m);
    DecimalRoundTrip(n);
  }

  // ---------------------------------------------------------------------------
  // get_knowledge_base
  // ---------------------------------------------------------------------------

  /**
   * One element of the stored list: a dict whose "question" and "answer"
   * entries may be missing (present ones given as their rendering), or any
   * other JSON value given as its str() rendering.
   */
  datatype KbItem =
    | DictItem(question: Option<string>, answer: Option<string>)
    | OtherItem(rendering: string)

  /** The loaded JSON: a list of items, or another value given as its json.dumps(indent=2) text. */
  datatype KbData = KbList(items: seq<KbItem>) | KbValue(dumped: string)

  /** The outcome of opening and parsing data/kb.json. */
  datatype KbLoad = FileNotFound | InvalidJson | Loaded(data: KbData)

  const KB_HEADER := "Here is the retrieved knowledge base:\n\n"
  const KB_NOT_FOUND := "Error: Knowledge base file not found"
  const KB_INVALID_JSON := "Error: Invalid JSON in knowledge base file"

  /** The question printed for item number `i`. */
  function QuestionOf(item: KbItem, i: nat): string {
    match item
    case DictItem(q, _) => if q.Some? then q.value else "Unknown question"
    case OtherItem(_) => "Item " + Decimal(i)
  }

  /** The answer printed for an item. */
  function AnswerOf(item: KbItem): string {
    match item
    case DictItem(_, a) => if a.Some? then a.value else "Unknown answer"
    case OtherItem(rendering) => rendering
  }

  /** `f"Q{i}: {question}\n"` */
  function QuestionLine(i: nat, question: string): string {
    "Q" + Decimal(i) + ": " + question + "\n"
  }

  /** `f"A{i}: {answer}\n\n"` */
  function AnswerLine(i: nat, answer: string): string {
    "A" + Decimal(i) + ": " + answer + "\n\n"
  }

  /** The two lines and blank line for item number `i`. */
  function Entry(i: nat, item: KbItem): string {
    QuestionLine(i, QuestionOf(item, i)) + AnswerLine(i, AnswerOf(item))
  }

  lemma FormattedNext(items: seq<KbItem>, i: nat)
    requires i < |items|
    ensures Formatted(items[..i + 1]) == Formatted(items[..i]) + Entry(i + 1, items[i])
  {
    assert items[..i + 1][..i] == items[..i];
  }

  /** The text the loop has appended after the items of `items`, numbered from 1. */
  function Formatted(items: seq<KbItem>): string {
    if |items| == 0 then "" else Formatted(items[..|items| - 1]) + Entry(|items|, items[|items| - 1])
  }

  /** Independent reading: entries for `items`, numbered from `first`, front to back. */
  function Entries(items: seq<KbItem>, first: nat): string {
    if |items| == 0 then "" else Entry(first, items[0]) + Entries(items[1..], first + 1)
  }

  /** Entries of a concatenation are the entries of the parts, the second numbered on. */
  lemma {:induction false} EntriesConcat(a: seq<KbItem>, b: seq<KbItem>, first: nat)
    ensures Entries(a + b, first) == Entries(a, first) + Entries(b, first + |a|)
  {
    if |a| == 0 {
      assert a + b == b;
    } else {
      assert (a + b)[0] == a[0];
      assert (a + b)[1..] == a[1..] + b;
      EntriesConcat(a[1..], b, first + 1);
    }
  }

  /** The loop's text is item 1's entry, then item 2's, and so on up to item n. */
  lemma {:induction false} FormattedIsEntries(items: seq<KbItem>)
    ensures Formatted(items) == Entries(items, 1)
  {
    if |items| > 0 {
      var init, last := items[..|items| - 1], items[|items| - 1];
      FormattedIsEntries(init);
      EntriesConcat(init, [last], 1);
      assert init + [last] == items;
      assert Entries([last], |items|) == Entry(|items|, last) by {
        assert [last][1..] == [];
      }
    }
  }

  /** Item k's entry starts where the entries of the earlier items end. */
  lemma EntryInPlace(items: seq<KbItem>, k: nat)
    requires k < |items|
    ensures var whole, prefix := Entries(items, 1), Entries(items[..k], 1);
      |prefix| <= |whole| && whole[..|prefix|] == prefix &&
      OccursAt(whole, Entry(k + 1, items[k]), |prefix|)
  {
    var prefix, rest := items[..k], items[k..];
    assert items == prefix + rest;
    EntriesConcat(prefix, rest, 1);
    var p, e, r := Entries(prefix, 1), Entry(k + 1, items[k]), Entries(rest[1..], k + 2);
    assert Entries(rest, k + 1) == e + r by {
      assert rest[0] == items[k];
    }
    AppendAssoc(p, e, r);
    assert Entries(items, 1) == p + e + r;
    OccursAfter(p, e, r);
  }

  lemma OccursAfter(p: string, e: string, r: string)
    ensures (p + e + r)[..|p|] == p && OccursAt(p + e + r, e, |p|)
  {
    assert (p + e + r)[|p|..|p| + |e|] == e;
  }

  /** Missing fields of a dict item get the placeholders; any other item its number and rendering. */
  lemma ItemDefaults(i: nat, q: Option<string>, a: Option<string>, v: string)
    ensures QuestionOf(DictItem(None, a), i) == "Unknown question"
    ensures AnswerOf(DictItem(q, None)) == "Unknown answer"
    ensures q.Some? ==> QuestionOf(DictItem(q, a), i) == q.value
    ensures a.Some? ==> AnswerOf(DictItem(q, a)) == a.value
    ensures QuestionOf(OtherItem(v), i) == "Item " + Decimal(i) && AnswerOf(OtherItem(v)) == v
  {
  }

  /**
   * The `for i, item in enumerate(kb_data, 1)` loop: appends to `header` the
   * question line and the answer line of every item, numbered from 1.
   */
  method AppendEntries(header: string, items: seq<KbItem>) returns (kbText: string)
    ensures kbText == header + Entries(items, 1)
  {
    kbText := header;
    var i := 0;
    assert items[..0] == [] && header + Formatted([]) == header;
    while i < |items|
      invariant 0 <= i <= |items|
      invariant kbText == header + Formatted(items[..i])
    {
      var item := items[i];
      var number := i + 1;
      var question, answer;
      match item {
        case DictItem(q, a) =>
          question := if q.Some? then q.value else "Unknown question";
          answer := if a.Some? then a.value else "Unknown answer";
        case OtherItem(rendering) =>
          question := "Item " + Decimal(number);
          answer := rendering;
      }
      assert question == QuestionOf(item, number) && answer == AnswerOf(item);
      ghost var before := kbText;
      kbText := kbText + QuestionLine(number, question);
      kbText := kbText + AnswerLine(number, answer);
      AppendAssoc(before, QuestionLine(number, question), AnswerLine(number, answer));
      AppendAssoc(header, Formatted(items[..i]), Entry(number, item));
      FormattedNext(items, i);
      i := i + 1;
    }
    assert items[..i] == items;
    FormattedIsEntries(items);
  }

  /**
   * get_knowledge_base on a given load outcome: the two error texts, or the
   * header followed by one entry per list item, or by the dumped value.
   */
  method GetKnowledgeBase(load: KbLoad) returns (text: string)
    ensures load == FileNotFound ==> text == KB_NOT_FOUND
    ensures load == InvalidJson ==> text == KB_INVALID_JSON
    ensures load.Loaded? && load.data.KbList? ==> text == KB_HEADER + Entries(load.data.items, 1)
    ensures load.Loaded? && load.data.KbValue? ==>
      text == KB_HEADER + "Knowledge base content: " + load.data.dumped + "\n\n"
  {
    match load
    case FileNotFound => return KB_NOT_FOUND;
    case InvalidJson => return KB_INVALID_JSON;
    case Loaded(data) =>
      text := KB_HEADER;
      match data
      case KbList(items) =>
        text := AppendEntries(text, items);
      case KbValue(dumped) =>
        text := text + ("Knowledge base content: " + dumped + "\n\n");
  }
}
