/** The prompt template: fixed instruction text, an output-format description, the action list,
  * one worked example, then the user's query and the metadata of the retrieved documents. */
module PromptBuilder {
  import opened Wrappers
  import opened Config

  // ---------------------------------------------------------------------------------------------
  // Occurrence of one string inside another
  // ---------------------------------------------------------------------------------------------

  /** `needle` occurs in `hay` starting at position `p`. */
  predicate OccursAt(needle: string, hay: string, p: int) {
    0 <= p && p + |needle| <= |hay| && hay[p..p + |needle|] == needle
  }

  /** `needle` occurs somewhere in `hay`. */
  ghost predicate Occurs(needle: string, hay: string) {
    exists p :: OccursAt(needle, hay, p)
  }

  lemma {:induction false} OccursInMiddle(a: string, b: string, c: string)
    ensures OccursAt(b, a + b + c, |a|)
  {
    assert (a + b + c)[|a|..|a| + |b|] == b;
  }

  lemma {:induction false} OccursAtStart(b: string, c: string)
    ensures OccursAt(b, b + c, 0)
  {
    assert (b + c)[0..|b|] == b;
  }

  lemma {:induction false} OccursShift(needle: string, hay: string, p: int, a: string)
    requires OccursAt(needle, hay, p)
    ensures OccursAt(needle, a + hay, |a| + p)
  {
    assert forall k :: p <= k < p + |needle| ==> (a + hay)[|a| + k] == hay[k];
    assert (a + hay)[|a| + p..|a| + p + |needle|] == needle;
  }

  lemma {:induction false} OccursBefore(needle: string, hay: string, p: int, c: string)
    requires OccursAt(needle, hay, p)
    ensures OccursAt(needle, hay + c, p)
  {
    assert (hay + c)[p..p + |needle|] == hay[p..p + |needle|];
  }

  lemma {:induction false} OccursExtend(needle: string, hay: string, p: int, a: string, c: string)
    requires OccursAt(needle, hay, p)
    ensures OccursAt(needle, a + hay + c, |a| + p)
  {
    var big := a + hay + c;
    assert forall k :: p <= k < p + |needle| ==> big[|a| + k] == hay[k];
    assert big[|a| + p..|a| + p + |needle|] == needle;
  }

  // ---------------------------------------------------------------------------------------------
  // Joining and concatenating strings
  // ---------------------------------------------------------------------------------------------

  /** `sep.join(parts)`. */
  function JoinWith(sep: string, parts: seq<string>): string
    decreases |parts|
  {
    if |parts| == 0 then ""
    else if |parts| == 1 then parts[0]
    else parts[0] + sep + JoinWith(sep, parts[1..])
  }

  /** Every part occurs in the joined string. */
  lemma {:induction false} JoinWithContainsEach(sep: string, parts: seq<string>, i: int)
    requires 0 <= i < |parts|
    ensures Occurs(parts[i], JoinWith(sep, parts))
    decreases |parts|
  {
    if |parts| == 1 {
      OccursInMiddle("", parts[0], "");
      assert "" + parts[0] + "" == JoinWith(sep, parts);
    } else if i == 0 {
      OccursInMiddle("", parts[0], sep + JoinWith(sep, parts[1..]));
      assert "" + parts[0] + (sep + JoinWith(sep, parts[1..])) == JoinWith(sep, parts);
    } else {
      JoinWithContainsEach(sep, parts[1..], i - 1);
      var p :| OccursAt(parts[i], JoinWith(sep, parts[1..]), p);
      OccursExtend(parts[i], JoinWith(sep, parts[1..]), p, parts[0] + sep, "");
      assert parts[0] + sep + JoinWith(sep, parts[1..]) + "" == JoinWith(sep, parts);
    }
  }

  /** The concatenation of a list of strings. */
  function Concat(pieces: seq<string>): string {
    if pieces == [] then "" else pieces[0] + Concat(pieces[1..])
  }

  lemma {:induction false} ConcatAppend(a: seq<string>, b: seq<string>)
    ensures Concat(a + b) == Concat(a) + Concat(b)
    decreases |a|
  {
    if a == [] {
      assert a + b == b;
    } else {
      assert (a + b)[1..] == a[1..] + b;
      ConcatAppend(a[1..], b);
    }
  }

  /** Each piece occurs in the concatenation right after the pieces before it. */
  lemma {:induction false} PieceOccurs(pieces: seq<string>, i: int)
    requires 0 <= i < |pieces|
    ensures OccursAt(pieces[i], Concat(pieces), |Concat(pieces[..i])|)
  {
    assert pieces == pieces[..i] + ([pieces[i]] + pieces[i + 1..]);
    ConcatAppend(pieces[..i], [pieces[i]] + pieces[i + 1..]);
    ConcatAppend([pieces[i]], pieces[i + 1..]);
    assert Concat([pieces[i]]) == pieces[i];
    OccursInMiddle(Concat(pieces[..i]), pieces[i], Concat(pieces[i + 1..]));
  }

  /** The text before piece `j` is longer than the text before piece `i` when some piece
    * `m` in between is non-empty. */
  lemma {:induction false} OffsetsIncrease(pieces: seq<string>, i: int, m: int, j: int)
    requires 0 <= i <= m < j <= |pieces| && pieces[m] != []
    ensures |Concat(pieces[..i])| < |Concat(pieces[..j])|
  {
    assert pieces[..j] == pieces[..i] + (pieces[i..m] + ([pieces[m]] + pieces[m + 1..j]));
    ConcatAppend(pieces[..i], pieces[i..m] + ([pieces[m]] + pieces[m + 1..j]));
    ConcatAppend(pieces[i..m], [pieces[m]] + pieces[m + 1..j]);
    ConcatAppend([pieces[m]], pieces[m + 1..j]);
    assert Concat([pieces[m]]) == pieces[m];
  }

  // ---------------------------------------------------------------------------------------------
  // Rendering of Python values inside the template
  // ---------------------------------------------------------------------------------------------

  /** A string as Python's `repr` writes it, for strings without quotes, backslashes or
    * control characters (all the strings it is applied to below). */
  function PyStr(s: string): (r: string)
    ensures |r| == |s| + 2 && r[0] == '\'' && r[|r| - 1] == '\'' && r[1..|r| - 1] == s
  {
    "'" + s + "'"
  }

  function Quoted(items: seq<string>): (r: seq<string>)
    ensures |r| == |items| && forall i :: 0 <= i < |items| ==> r[i] == PyStr(items[i])
  {
    seq(|items|, i requires 0 <= i < |items| => PyStr(items[i]))
  }

  /** A Python list of such strings, as `str(list)` writes it. */
  function PyList(items: seq<string>): string {
    "[" + JoinWith(", ", Quoted(items)) + "]"
  }

  /** Every item of a list appears, quoted, in its rendering. */
  lemma PyListShowsEach(items: seq<string>, i: int)
    requires 0 <= i < |items|
    ensures Occurs(PyStr(items[i]), PyList(items))
  {
    JoinWithContainsEach(", ", Quoted(items), i);
    var p :| OccursAt(PyStr(items[i]), JoinWith(", ", Quoted(items)), p);
    OccursExtend(PyStr(items[i]), JoinWith(", ", Quoted(items)), p, "[", "]");
  }

  // ---------------------------------------------------------------------------------------------
  // Class constants
  // ---------------------------------------------------------------------------------------------

  /** `SYSTEM_ROLE`: the instructions the model is given. */
  const SystemRole: string := @"You are a Knowledge Assistant that can analyze customer support queries and return structured, relevant, and helpful responses.

  TASK:
  Resolve the customer ticket strictly using the provided context.

  RULES:
  You will be provided with QUERY CONTEXT. Use only the QUERY CONTEXT to answer questions. Do not answer from yourself or infer hallucinations.
  If an answer cannot be derived from the context, respond that the information is unavailable.
  Cite the exact document sources using the filenames from the QUERY CONTEXT given.
  Determine the action to take using the action list provided. Do not infer an action that is not mentioned from the list.
  Return only the response in the valid JSON output format provided. Do not include markdown. Do not include explanations. Use the examples provided to structure response."

  /** The worked example: its query, its context and its answer text. */
  const FewShotQuery: string := @"My domain was suspended and I didn’t get any notice. How can I reactivate it?"
  const FewShotContext: string := @"[{'text': 'Your domain may have been suspended due to a violation of policy or missing WHOIS information. Please update your WHOIS details and contact support.', 'metadata': {'filename': 'Account Recovery'}]"
  const FewShotAnswer: string := @"Your domain may have been suspended due to a violation of policy or missing WHOIS information. Please update your WHOIS details and contact support."

  /** The actions the model may choose from. */
  const ActionNames: seq<string> :=
    ["none", "escalate_to_abuse_team", "escalate_to_legal_team", "escalate_to_sales_team", "follow_up_required"]

  /** `ACTIONS`: the action list as a Python list literal with one space on each side. */
  const Actions: string := " " + PyList(ActionNames) + " "

  /** The fields of the expected JSON answer, each with the hint the template shows for it. */
  const OutputFields: seq<(string, string)> := [
    ("answer", "\"A clear and concise answer to the customer's question based on the provided context\""),
    ("references", "[\"List of document references\"]"),
    ("action_required", "\"Return exactly one value from this list: " + Actions + "\"")
  ]

  /** One line of the JSON template: `"key": hint`, indented by four spaces. */
  function FieldLine(field: (string, string)): string {
    "\n    \"" + field.0 + "\": " + field.1
  }

  function FieldLines(fields: seq<(string, string)>): (r: seq<string>)
    ensures |r| == |fields| && forall i :: 0 <= i < |fields| ==> r[i] == FieldLine(fields[i])
  {
    seq(|fields|, i requires 0 <= i < |fields| => FieldLine(fields[i]))
  }

  /** `OUTPUT_FORMAT`: the field lines, comma-separated, inside braces indented by two spaces. */
  const OutputFormat: string := "\n  {" + JoinWith(",", FieldLines(OutputFields)) + "\n  }"

  /** The worked example's expected answer. */
  const FewShotOutput: TicketResponse :=
    TicketResponse(FewShotAnswer, ["Domain Suspension Policy"], "escalate_to_abuse_team")

  /** A `TicketResponse` as Python's `str` of its dict form writes it. */
  function ReprTicket(t: TicketResponse): string {
    "{'answer': " + PyStr(t.answer) + ", 'references': " + PyList(t.references)
    + ", 'action_required': " + PyStr(t.actionRequired) + "}"
  }

  /** The worked example's answer as it appears in the prompt. */
  const FewShotOutputText: string := ReprTicket(FewShotOutput)

  /** `ACTIONS` names exactly five distinct actions, each of which appears quoted in its text. */
  lemma ActionsNameFiveActions()
    ensures |ActionNames| == 5
    ensures forall i, j :: 0 <= i < j < |ActionNames| ==> ActionNames[i] != ActionNames[j]
    ensures forall i :: 0 <= i < |ActionNames| ==> Occurs(PyStr(ActionNames[i]), Actions)
  {
    forall i | 0 <= i < |ActionNames|
      ensures Occurs(PyStr(ActionNames[i]), Actions)
    {
      PyListShowsEach(ActionNames, i);
      var p :| OccursAt(PyStr(ActionNames[i]), PyList(ActionNames), p);
      OccursExtend(PyStr(ActionNames[i]), PyList(ActionNames), p, " ", " ");
    }
  }

  /** The worked example picks one of the listed actions. */
  lemma FewShotActionIsListed()
    ensures FewShotOutput.actionRequired in ActionNames
  {
    assert FewShotOutput.actionRequired == ActionNames[1];
  }

  /** `OUTPUT_FORMAT` names exactly the fields of `TicketResponse`, in declaration order, and
    * shows each of them as a JSON key followed by its hint. */
  lemma OutputFormatNamesTicketFields()
    ensures |OutputFields| == |TicketResponseFields|
    ensures forall i :: 0 <= i < |OutputFields| ==> OutputFields[i].0 == TicketResponseFields[i]
    ensures forall i :: 0 <= i < |OutputFields| ==> Occurs(FieldLine(OutputFields[i]), OutputFormat)
  {
    forall i | 0 <= i < |OutputFields|
      ensures Occurs(FieldLine(OutputFields[i]), OutputFormat)
    {
      var lines := FieldLines(OutputFields);
      JoinWithContainsEach(",", lines, i);
      var p :| OccursAt(lines[i], JoinWith(",", lines), p);
      OccursExtend(lines[i], JoinWith(",", lines), p, "\n  {", "\n  }");
    }
  }

  // ---------------------------------------------------------------------------------------------
  // build_prompt
  // ---------------------------------------------------------------------------------------------

  /** A retrieved document as the prompt builder receives it: a dict keyed by field name. */
  type ContextDoc<V> = map<string, V>

  const MetadataKey: string := "metadata"

  /** A `KeyError` raised while reading a document's field. */
  datatype PromptError = KeyError(key: string)

  /** The `metadata` value of every document, in order; `None` as soon as one document has none. */
  function Metadatas<V>(docs: seq<ContextDoc<V>>): (r: Option<seq<V>>)
    ensures r.None? <==> exists i :: 0 <= i < |docs| && MetadataKey !in docs[i]
    ensures r.Some? ==> |r.value| == |docs|
    ensures r.Some? ==> forall i :: 0 <= i < |docs| ==> MetadataKey in docs[i] && r.value[i] == docs[i][MetadataKey]
    decreases |docs|
  {
    if docs == [] then Some([])
    else if MetadataKey !in docs[0] then None
    else
      match Metadatas(docs[1..])
      case None => None
      case Some(rest) => Some([docs[0][MetadataKey]] + rest)
  }

  /** The f-string of `build_prompt` over the values of the class constants it reads. */
  datatype Template = Template(
    systemRole: string, outputFormat: string, actions: string,
    fewShotQuery: string, fewShotContext: string, fewShotOutput: string)
  {
    /** The pieces of the prompt before the user's query, in order. */
    function HeaderPieces(): seq<string> {
      [ "\n", systemRole,
        "\n\n", "Output Format:", "\n", outputFormat,
        "\n\n", "Action List:", "\n", actions,
        "\n\n", "FEW-SHOT EXAMPLE:",
        "\nQuery: ", fewShotQuery, "\nContext:\n", fewShotContext, "\nExample Response:\n", fewShotOutput,
        "\n\n" ]
    }

    function Header(): string {
      Concat(HeaderPieces())
    }

    /** The filled template: the header, then the user section. */
    function Fill(query: string, context: string): string {
      Header() + UserSection(query, context)
    }

    /** Where piece `k` of the header starts. */
    function Offset(k: nat): int
      requires k <= |HeaderPieces()|
    {
      |Concat(HeaderPieces()[..k])|
    }

    /** The four header markers occur in the header, in order. */
    lemma HeaderMarkersInOrder()
      ensures OccursAt(systemRole, Header(), Offset(1))
      ensures OccursAt("Output Format:", Header(), Offset(3))
      ensures OccursAt("Action List:", Header(), Offset(7))
      ensures OccursAt("FEW-SHOT EXAMPLE:", Header(), Offset(11))
      ensures Offset(1) < Offset(3) < Offset(7) < Offset(11)
    {
      var pieces := HeaderPieces();
      PieceOccurs(pieces, 1);
      PieceOccurs(pieces, 3);
      PieceOccurs(pieces, 7);
      PieceOccurs(pieces, 11);
      OffsetsIncrease(pieces, 1, 2, 3);
      OffsetsIncrease(pieces, 3, 6, 7);
      OffsetsIncrease(pieces, 7, 10, 11);
    }

    /** The constants the template reads, in the order it shows them. */
    function Fields(): seq<string> {
      [systemRole, outputFormat, actions, fewShotQuery, fewShotContext, fewShotOutput]
    }

    /** Where each constant starts in the header. */
    function FieldStarts(): seq<int> {
      [Offset(1), Offset(5), Offset(9), Offset(13), Offset(15), Offset(17)]
    }

    lemma FieldsAtStarts()
      ensures StrictlyIncreasing(FieldStarts())
      ensures forall k :: 0 <= k < 6 ==> OccursAt(Fields()[k], Header(), FieldStarts()[k])
    {
      var pieces := HeaderPieces();
      PieceOccurs(pieces, 1);
      PieceOccurs(pieces, 5);
      PieceOccurs(pieces, 9);
      PieceOccurs(pieces, 13);
      PieceOccurs(pieces, 15);
      PieceOccurs(pieces, 17);
      OffsetsIncrease(pieces, 1, 2, 5);
      OffsetsIncrease(pieces, 5, 6, 9);
      OffsetsIncrease(pieces, 9, 10, 13);
      OffsetsIncrease(pieces, 13, 14, 15);
      OffsetsIncrease(pieces, 15, 16, 17);
    }

    /** Each constant appears whole in the header, and they come in the order system role, output
      * format, action list, worked-example query, context and answer. */
    lemma FieldsInOrder()
      ensures InOrder(Fields(), Header())
    {
      FieldsAtStarts();
    }

    /** The section markers, in the order the prompt presents them. */
    function Markers(): seq<string> {
      [systemRole, "Output Format:", "Action List:", "FEW-SHOT EXAMPLE:", "USER QUERY:", "QUERY CONTEXT:"]
    }

    /** Where each marker starts in a prompt for a query of the given length. */
    function Starts(queryLength: nat): seq<int> {
      [Offset(1), Offset(3), Offset(7), Offset(11), |Header()|, |Header()| + 21 + queryLength]
    }

    /** The header markers keep their places once the user section follows the header. */
    lemma HeaderMarkersInFill(query: string, context: string)
      ensures OccursAt(systemRole, Fill(query, context), Offset(1))
      ensures OccursAt("Output Format:", Fill(query, context), Offset(3))
      ensures OccursAt("Action List:", Fill(query, context), Offset(7))
      ensures OccursAt("FEW-SHOT EXAMPLE:", Fill(query, context), Offset(11))
      ensures Offset(1) < Offset(3) < Offset(7) < Offset(11) < |Header()|
    {
      var header := Header();
      var user := UserSection(query, context);
      HeaderMarkersInOrder();
      OccursBefore(systemRole, header, Offset(1), user);
      OccursBefore("Output Format:", header, Offset(3), user);
      OccursBefore("Action List:", header, Offset(7), user);
      OccursBefore("FEW-SHOT EXAMPLE:", header, Offset(11), user);
    }

    /** The user-section markers sit right after the header. */
    lemma UserMarkersInFill(query: string, context: string)
      ensures OccursAt("USER QUERY:", Fill(query, context), |Header()|)
      ensures OccursAt("QUERY CONTEXT:", Fill(query, context), |Header()| + 21 + |query|)
    {
      var header := Header();
      var user := UserSection(query, context);
      UserSectionLayout(query, context);
      OccursShift("USER QUERY:", user, 0, header);
      OccursShift("QUERY CONTEXT:", user, 21 + |query|, header);
    }

    lemma MarkersAtStarts(query: string, context: string)
      ensures StrictlyIncreasing(Starts(|query|))
      ensures OccursAt(Markers()[0], Fill(query, context), Starts(|query|)[0])
      ensures OccursAt(Markers()[1], Fill(query, context), Starts(|query|)[1])
      ensures OccursAt(Markers()[2], Fill(query, context), Starts(|query|)[2])
      ensures OccursAt(Markers()[3], Fill(query, context), Starts(|query|)[3])
      ensures OccursAt(Markers()[4], Fill(query, context), Starts(|query|)[4])
      ensures OccursAt(Markers()[5], Fill(query, context), Starts(|query|)[5])
    {
      HeaderMarkersInFill(query, context);
      UserMarkersInFill(query, context);
    }

    /** The six sections appear in the fixed order: system role, output format, action list,
      * worked example, user query, query context. */
    lemma MarkersInOrder(query: string, context: string)
      ensures InOrder(Markers(), Fill(query, context))
    {
      MarkersAtStarts(query, context);
      var starts := Starts(|query|);
      assert forall k :: 0 <= k < |starts| ==> OccursAt(Markers()[k], Fill(query, context), starts[k]);
    }
  }

  /** The query under `USER QUERY:`, then the context under `QUERY CONTEXT:`. */
  function UserSection(query: string, context: string): string {
    "USER QUERY:" + ("\nQuery: " + (query + ("\n\n" + ("QUERY CONTEXT:" + ("\n" + (context + "\n"))))))
  }

  /** Where each part of the user section sits. */
  lemma UserSectionLayout(query: string, context: string)
    ensures OccursAt("USER QUERY:", UserSection(query, context), 0)
    ensures OccursAt("\nQuery: ", UserSection(query, context), 11)
    ensures OccursAt(query, UserSection(query, context), 19)
    ensures OccursAt("\n\n", UserSection(query, context), 19 + |query|)
    ensures OccursAt("QUERY CONTEXT:", UserSection(query, context), 21 + |query|)
    ensures OccursAt(context, UserSection(query, context), 36 + |query|)
    ensures |UserSection(query, context)| == 37 + |query| + |context|
  {
    var t6 := context + "\n";
    var t5 := "\n" + t6;
    var t4 := "QUERY CONTEXT:" + t5;
    var t3 := "\n\n" + t4;
    var t2 := query + t3;
    var t1 := "\nQuery: " + t2;
    var u := "USER QUERY:" + t1;
    OccursAtStart("USER QUERY:", t1);
    OccursAtStart("\nQuery: ", t2);
    OccursShift("\nQuery: ", t1, 0, "USER QUERY:");
    OccursAtStart(query, t3);
    OccursShift(query, t2, 0, "\nQuery: ");
    OccursShift(query, t1, 8, "USER QUERY:");
    OccursAtStart("\n\n", t4);
    OccursShift("\n\n", t3, 0, query);
    OccursShift("\n\n", t2, |query|, "\nQuery: ");
    OccursShift("\n\n", t1, 8 + |query|, "USER QUERY:");
    OccursAtStart("QUERY CONTEXT:", t5);
    OccursShift("QUERY CONTEXT:", t4, 0, "\n\n");
    OccursShift("QUERY CONTEXT:", t3, 2, query);
    OccursShift("QUERY CONTEXT:", t2, 2 + |query|, "\nQuery: ");
    OccursShift("QUERY CONTEXT:", t1, 10 + |query|, "USER QUERY:");
    OccursAtStart(context, "\n");
    OccursShift(context, t6, 0, "\n");
    OccursShift(context, t5, 1, "QUERY CONTEXT:");
    OccursShift(context, t4, 15, "\n\n");
    OccursShift(context, t3, 17, query);
    OccursShift(context, t2, 17 + |query|, "\nQuery: ");
    OccursShift(context, t1, 25 + |query|, "USER QUERY:");
  }

  predicate StrictlyIncreasing(xs: seq<int>) {
    forall k :: 0 <= k < |xs| - 1 ==> xs[k] < xs[k + 1]
  }

  /** The markers occur in `text` at strictly increasing positions. */
  ghost predicate InOrder(markers: seq<string>, text: string) {
    exists starts: seq<int> :: |starts| == |markers| && StrictlyIncreasing(starts)
      && forall k :: 0 <= k < |starts| ==> OccursAt(markers[k], text, starts[k])
  }

  /** The values of `PromptBuilder`'s class constants. */
  const Constants: Template :=
    Template(SystemRole, OutputFormat, Actions, FewShotQuery, FewShotContext, FewShotOutputText)

  /** The part of every prompt before the user's query. */
  const PromptHeader: string := Constants.Header()

  /** Every prompt's header shows `SYSTEM_ROLE`, `OUTPUT_FORMAT`, `ACTIONS` and the three parts of
    * `FEW_SHOT_SAMPLE` whole and in that order. */
  lemma PromptHeaderShowsConstants()
    ensures InOrder([SystemRole, OutputFormat, Actions, FewShotQuery, FewShotContext, FewShotOutputText], PromptHeader)
  {
    Constants.FieldsInOrder();
    assert Constants.Fields() == [SystemRole, OutputFormat, Actions, FewShotQuery, FewShotContext, FewShotOutputText];
  }

  /** `build_prompt`: the template filled with the query and the rendering (by `repr`, Python's
    * `str` of a list) of the documents' metadata values. It fails only when a document has no
    * `metadata` key; no input is checked for emptiness. */
  function BuildPrompt<V>(query: string, docs: seq<ContextDoc<V>>, repr: seq<V> -> string): (r: Result<string, PromptError>)
    ensures r.Failure? <==> exists i :: 0 <= i < |docs| && MetadataKey !in docs[i]
    ensures r.Failure? ==> r.error == KeyError(MetadataKey)
  {
    match Metadatas(docs)
    case None => Failure(KeyError(MetadataKey))
    case Some(metadatas) => Success(Constants.Fill(query, repr(metadatas)))
  }

  /** The section markers of the prompt, in order. */
  const SectionMarkers: seq<string> := Constants.Markers()

  /** The six sections appear in the fixed order: system role, output format, action list, worked
    * example, user query, query context. */
  lemma SectionsInOrder<V>(query: string, docs: seq<ContextDoc<V>>, repr: seq<V> -> string)
    requires forall i :: 0 <= i < |docs| ==> MetadataKey in docs[i]
    ensures InOrder(SectionMarkers, BuildPrompt(query, docs, repr).value)
  {
    var ctx := repr(Metadatas(docs).value);
    var prompt := BuildPrompt(query, docs, repr).value;
    assert prompt == Constants.Fill(query, ctx);
    Constants.MarkersInOrder(query, ctx);
    assert InOrder(Constants.Markers(), Constants.Fill(query, ctx));
  }

  /** Every prompt is the same fixed header followed by the user section. */
  lemma PromptLayout<V>(query: string, docs: seq<ContextDoc<V>>, repr: seq<V> -> string)
    requires forall i :: 0 <= i < |docs| ==> MetadataKey in docs[i]
    ensures BuildPrompt(query, docs, repr).value == PromptHeader + UserSection(query, repr(Metadatas(docs).value))
  {
  }

  /** The query appears verbatim on its own `Query:` line right after the `USER QUERY:` marker,
    * and the rendered metadata right after the `QUERY CONTEXT:` marker. */
  lemma QueryAppearsVerbatim<V>(query: string, docs: seq<ContextDoc<V>>, repr: seq<V> -> string)
    requires forall i :: 0 <= i < |docs| ==> MetadataKey in docs[i]
    ensures var prompt, h := BuildPrompt(query, docs, repr).value, |PromptHeader|;
      && OccursAt("USER QUERY:", prompt, h)
      && OccursAt("\nQuery: ", prompt, h + 11)
      && OccursAt(query, prompt, h + 19)
      && OccursAt("\n\n", prompt, h + 19 + |query|)
      && OccursAt(repr(Metadatas(docs).value), prompt, h + 36 + |query|)
      && |prompt| == h + 37 + |query| + |repr(Metadatas(docs).value)|
  {
    var ctx := repr(Metadatas(docs).value);
    PromptLayout(query, docs, repr);
    HeadedUserSectionLayout(PromptHeader, query, ctx);
  }

  /** The layout of the user section behind any header. */
  lemma HeadedUserSectionLayout(header: string, query: string, context: string)
    ensures var text, h := header + UserSection(query, context), |header|;
      && OccursAt("USER QUERY:", text, h)
      && OccursAt("\nQuery: ", text, h + 11)
      && OccursAt(query, text, h + 19)
      && OccursAt("\n\n", text, h + 19 + |query|)
      && OccursAt(context, text, h + 36 + |query|)
      && |text| == h + 37 + |query| + |context|
  {
    var u := UserSection(query, context);
    UserSectionLayout(query, context);
    OccursShift("USER QUERY:", u, 0, header);
    OccursShift("\nQuery: ", u, 11, header);
    OccursShift(query, u, 19, header);
    OccursShift("\n\n", u, 19 + |query|, header);
    OccursShift(context, u, 36 + |query|, header);
  }

  /** Different queries over the same documents give different prompts. */
  lemma QueryDeterminesPrompt<V>(q1: string, q2: string, docs: seq<ContextDoc<V>>, repr: seq<V> -> string)
    requires forall i :: 0 <= i < |docs| ==> MetadataKey in docs[i]
    ensures BuildPrompt(q1, docs, repr) == BuildPrompt(q2, docs, repr) ==> q1 == q2
  {
    QueryAppearsVerbatim(q1, docs, repr);
    QueryAppearsVerbatim(q2, docs, repr);
  }

  /** The context section depends only on each document's `metadata` value, in input order; any
    * other field of a document (the retrieval score) has no effect on the prompt. */
  lemma ContextIsMetadataOnly<V>(query: string, docs1: seq<ContextDoc<V>>, docs2: seq<ContextDoc<V>>, repr: seq<V> -> string)
    requires |docs1| == |docs2|
    requires forall i :: 0 <= i < |docs1| ==> MetadataKey in docs1[i] && MetadataKey in docs2[i]
    requires forall i :: 0 <= i < |docs1| ==> docs1[i][MetadataKey] == docs2[i][MetadataKey]
    ensures BuildPrompt(query, docs1, repr) == BuildPrompt(query, docs2, repr)
  {
    var m1 := Metadatas(docs1).value;
    var m2 := Metadatas(docs2).value;
    assert m1 == m2;
  }
}
