/** Fenced-code extraction and the syntax reprompt check of `code.py`. */
module Code {
  import opened Wrappers
  import opened Structs
  import opened Text

  /** The opening marker the extraction looks for. */
  const PythonTag: string := "```python"
  /** The closing marker. */
  const Fence: string := "```"

  /** `body` is what follows an opening tag, given the text `rest` after the
      tag: everything up to the first closing fence, or all of `rest` when no
      closing fence follows. */
  ghost predicate BodyOf(rest: string, body: string) {
    && |body| <= |rest|
    && rest[..|body|] == body
    && (forall j: nat :: j < |body| ==> !OccursAt(rest, Fence, j))
    && (|body| == |rest| || OccursAt(rest, Fence, |body|))
  }

  /** Reference definition of a successful extraction: `code` is the body
      after the FIRST opening tag of `text`. */
  ghost predicate IsExtraction(text: string, code: string) {
    exists i: nat :: FirstAt(text, PythonTag, i) && BodyOf(text[i + |PythonTag|..], code)
  }

  /** The slice shared by both extraction functions: the text after the tag,
      cut at the first closing fence if there is one. */
  function CutAtFence(rest: string): (body: string)
    ensures BodyOf(rest, body)
  {
    var end := match IndexOf(rest, Fence) case Some(e) => e case None => |rest|;
    rest[..end]
  }

  /** `parse_python_code_from_text`: the code after the first "```python",
      or `None` when the tag does not occur. */
  function ParseCodeFromText(text: string): (r: Option<string>)
    ensures r.None? <==> !Contains(text, PythonTag)
    ensures r.Some? ==> IsExtraction(text, r.value)
  {
    match IndexOf(text, PythonTag)
    case None => None
    case Some(start) => Some(CutAtFence(text[start + |PythonTag|..]))
  }

  /** A body never contains a closing fence. */
  lemma BodyHasNoFence(rest: string, body: string)
    requires BodyOf(rest, body)
    ensures !Contains(body, Fence)
  {
    forall j: nat | OccursAt(body, Fence, j)
      ensures false
    {
      OccursInPrefix(rest, |body|, Fence, j);
    }
  }

  /** The extraction relation is functional. */
  lemma ExtractionUnique(text: string, a: string, b: string)
    requires IsExtraction(text, a) && IsExtraction(text, b)
    ensures a == b
  {
  }

  /** What an extraction is made of: a substring of the text that starts right
      after the first tag, holds no closing fence, and is at most the text minus
      the tag. */
  lemma ExtractionShape(text: string, code: string)
    requires IsExtraction(text, code)
    ensures !Contains(code, Fence)
    ensures |code| <= |text| - |PythonTag|
    ensures Contains(text, code)
    ensures exists i: nat :: FirstAt(text, PythonTag, i)
                          && text[i + |PythonTag|..i + |PythonTag| + |code|] == code
  {
    var i: nat :| FirstAt(text, PythonTag, i) && BodyOf(text[i + |PythonTag|..], code);
    var rest := text[i + |PythonTag|..];
    BodyHasNoFence(rest, code);
    assert text[i + |PythonTag|..i + |PythonTag| + |code|] == rest[..|code|];
    assert OccursAt(text, code, i + |PythonTag|);
  }

  /** With no closing fence after the first tag, the whole remainder is returned. */
  lemma NoClosingFenceTakesRest(text: string, i: nat)
    requires FirstAt(text, PythonTag, i)
    requires !Contains(text[i + |PythonTag|..], Fence)
    ensures ParseCodeFromText(text) == Some(text[i + |PythonTag|..])
  {
    var rest := text[i + |PythonTag|..];
    var r := ParseCodeFromText(text);
    assert Contains(text, PythonTag);
    assert BodyOf(rest, rest) by {
      assert rest[..|rest|] == rest;
    }
    assert IsExtraction(text, rest);
    ExtractionUnique(text, r.value, rest);
  }

  /** The tag is at the start of `t` and its first closing fence is at `k`. */
  lemma TaggedAtStart(t: string, k: nat)
    requires OccursAt(t, PythonTag, 0)
    requires |PythonTag| + k <= |t|
    requires forall j: nat :: j < k ==> !OccursAt(t[|PythonTag|..], Fence, j)
    requires k + |Fence| <= |t| - |PythonTag| ==> OccursAt(t[|PythonTag|..], Fence, k)
    requires k + |Fence| > |t| - |PythonTag| ==> k == |t| - |PythonTag|
    ensures ParseCodeFromText(t) == Some(t[|PythonTag|..|PythonTag| + k])
  {
    var rest := t[|PythonTag|..];
    var body := rest[..k];
    assert FirstAt(t, PythonTag, 0);
    assert rest[..|body|] == body;
    assert BodyOf(rest, body);
    assert IsExtraction(t, body);
    ExtractionUnique(t, ParseCodeFromText(t).value, body);
    assert body == t[|PythonTag|..|PythonTag| + k];
  }

  /** A text without a backtick holds no tag. */
  lemma NoBacktickNoTag(text: string)
    requires '`' !in text
    ensures !Contains(text, PythonTag)
  {
    forall i: nat | i + |PythonTag| <= |text|
      ensures !OccursAt(text, PythonTag, i)
    {
      assert text[i] in text;
      assert text[i..i + |PythonTag|][0] == text[i];
    }
  }

  /** No trimming: the newline after the tag and before the fence are kept. */
  lemma NoTrimming()
    ensures ParseCodeFromText("```python\nX\n```") == Some("\nX\n")
    ensures ParseCodeFromText("```python\nX") == Some("\nX")
    ensures ParseCodeFromText("no fences here") == None
  {
    var t := "```python\nX\n```";
    var rest := t[|PythonTag|..];
    assert rest == "\nX\n```";
    forall j: nat | j < 3 ensures !OccursAt(rest, Fence, j) {
      assert rest[j] != '`';
    }
    TaggedAtStart(t, 3);
    assert t[|PythonTag|..|PythonTag| + 3] == "\nX\n";
    var u := "```python\nX";
    forall j: nat | j < 2 ensures !OccursAt(u[|PythonTag|..], Fence, j) {
    }
    TaggedAtStart(u, 2);
    assert u[|PythonTag|..|PythonTag| + 2] == "\nX";
    NoBacktickNoTag("no fences here");
  }

  /** The result of `ast.parse` on a piece of code: success, a syntax error
      whose formatted traceback is `report`, or any other exception, which
      `get_reprompt` does not catch (a NUL character, for one, raises
      `ValueError` in some Python versions). */
  datatype ParseOutcome = Parsed | SyntaxError(report: string) | Raises(error: Error)

  const NoCodeMessage: string := "No python code was found in the response."

  /** `SyntaxRepromptCheck.get_reprompt`. The parser (`ast.parse` with the
      traceback formatting) and `create_reprompt_from_error_message` are
      parameters, since neither is part of this model. `Success(None)` means
      the response is accepted; `Failure` is an exception escaping the parser. */
  function GetReprompt(
    parse: string -> ParseOutcome,
    reprompt: (Query, Response, string) -> Query,
    query: Query,
    response: Response
  ): (r: Result<Option<Query>, Error>)
    ensures r == Success(None) <==> exists code :: IsExtraction(response.text, code) && parse(code).Parsed?
    ensures !Contains(response.text, PythonTag) ==> r == Success(Some(reprompt(query, response, NoCodeMessage)))
    ensures forall code :: IsExtraction(response.text, code) && parse(code).SyntaxError? ==>
              r == Success(Some(reprompt(query, response, parse(code).report)))
    ensures forall code :: IsExtraction(response.text, code) && parse(code).Raises? ==>
              r == Failure(parse(code).error)
  {
    var code := ParseCodeFromText(response.text);
    if code.None? then
      Success(Some(reprompt(query, response, NoCodeMessage)))
    else
      assert forall c :: IsExtraction(response.text, c) ==> c == code.value by {
        forall c | IsExtraction(response.text, c) ensures c == code.value {
          ExtractionUnique(response.text, c, code.value);
        }
      }
      match parse(code.value)
      case Parsed => Success(None)
      case SyntaxError(report) => Success(Some(reprompt(query, response, report)))
      case Raises(e) => Failure(e)
  }
}
