/**
 * Turning a successful response into the answer text. Each entry point
 * probes the response's fields in its own order of priority and falls back
 * to `str(resp)` only when none of them yields text.
 */
module Extract {

  import opened Wrappers
  import opened PyStr
  import opened Provider

  /** A content piece tagged "output_text" is always collected; any other
      piece only when its text is truthy. */
  predicate Contributes(p: Piece) {
    p.kind == Some("output_text") || Truthy(p.text)
  }

  /** What one piece adds to the collected texts (getDados.py:206-215):
      an "output_text" piece its text, "" when missing; another piece its
      truthy text. */
  function PieceTexts(p: Piece): (r: seq<string>)
    ensures |r| == (if Contributes(p) then 1 else 0)
    ensures Contributes(p) ==> r == [p.text.GetOr("")]
  {
    if p.kind == Some("output_text") then [p.text.GetOr("")]
    else if Truthy(p.text) then [p.text.value]
    else []
  }

  /** The texts collected from one item's content, in order. */
  function ContentTexts(pieces: seq<Piece>): seq<string>
    decreases |pieces|
  {
    if pieces == [] then [] else PieceTexts(pieces[0]) + ContentTexts(pieces[1..])
  }

  /** The texts collected from every item of `output`, in order. */
  function Fragments(items: seq<Item>): seq<string>
    decreases |items|
  {
    if items == [] then [] else ContentTexts(items[0].content) + Fragments(items[1..])
  }

  /** The fragment scan (getDados.py:198-215, 359-376): the outer loop over
      `output`, appending what each item's content gives to `texts`. */
  method ScanFragments(output: seq<Item>) returns (texts: seq<string>)
    ensures texts == Fragments(output)
  {
    texts := [];
    var i := 0;
    while i < |output|
      invariant 0 <= i <= |output|
      invariant texts + Fragments(output[i..]) == Fragments(output)
    {
      var found := ScanContent(output[i].content);
      FragmentsStep(output, i);
      texts := texts + found;
      i := i + 1;
    }
  }

  /** The inner loop of the scan (getDados.py:203-215): the pieces of one
      item's content, in order. */
  method ScanContent(content: seq<Piece>) returns (found: seq<string>)
    ensures found == ContentTexts(content)
  {
    found := [];
    var j := 0;
    while j < |content|
      invariant 0 <= j <= |content|
      invariant found + ContentTexts(content[j..]) == ContentTexts(content)
    {
      var piece := content[j];
      ghost var before := found;
      if piece.kind == Some("output_text") {
        found := found + [piece.text.GetOr("")];
      } else if Truthy(piece.text) {
        found := found + [piece.text.value];
      }
      assert found == before + PieceTexts(piece);
      ContentStep(content, j);
      Regroup(before, PieceTexts(piece), ContentTexts(content[j + 1..]));
      j := j + 1;
    }
    assert content[j..] == [];
  }

  lemma Regroup<T>(a: seq<T>, b: seq<T>, c: seq<T>)
    ensures a + b + c == a + (b + c)
  {
  }

  lemma ContentStep(pieces: seq<Piece>, j: int)
    requires 0 <= j < |pieces|
    ensures ContentTexts(pieces[j..]) == PieceTexts(pieces[j]) + ContentTexts(pieces[j + 1..])
  {
    assert pieces[j..][1..] == pieces[j + 1..];
  }

  lemma FragmentsStep(items: seq<Item>, i: int)
    requires 0 <= i < |items|
    ensures Fragments(items[i..]) == ContentTexts(items[i].content) + Fragments(items[i + 1..])
  {
    assert items[i..][1..] == items[i + 1..];
  }

  /** The scan of a concatenation is the concatenation of the scans: texts
      come out in the order the items stand in `output`. */
  lemma {:induction false} FragmentsAppend(a: seq<Item>, b: seq<Item>)
    ensures Fragments(a + b) == Fragments(a) + Fragments(b)
    decreases |a|
  {
    if a != [] {
      assert (a + b)[0] == a[0];
      assert (a + b)[1..] == a[1..] + b;
      FragmentsAppend(a[1..], b);
      var h := ContentTexts(a[0].content);
      assert Fragments(a + b) == h + (Fragments(a[1..]) + Fragments(b));
      assert Fragments(a) == h + Fragments(a[1..]);
    } else {
      assert a + b == b;
    }
  }

  /** The texts of one item whose pieces all carry a truthy text: those
      texts, one per piece, in order. */
  lemma {:induction false} ContentTextsAllText(pieces: seq<Piece>)
    requires forall j :: 0 <= j < |pieces| ==> Truthy(pieces[j].text)
    ensures ContentTexts(pieces) == seq(|pieces|, j requires 0 <= j < |pieces| => pieces[j].text.GetOr(""))
    decreases |pieces|
  {
    if pieces != [] {
      ContentTextsAllText(pieces[1..]);
    }
  }

  /** The lists of `seqs`, one after the other. */
  function Flatten(seqs: seq<seq<string>>): (r: seq<string>)
    decreases |seqs|
  {
    if seqs == [] then [] else seqs[0] + Flatten(seqs[1..])
  }

  /** The texts of every piece of every item, item by item and piece by
      piece. */
  function PieceTextValues(items: seq<Item>): seq<seq<string>>
  {
    seq(|items|, i requires 0 <= i < |items| =>
      seq(|items[i].content|, j requires 0 <= j < |items[i].content| => items[i].content[j].text.GetOr("")))
  }

  /** When every piece carries a truthy text, the scan collects exactly
      those texts, in the order of the items and of their pieces. */
  lemma {:induction false} FragmentsAllText(items: seq<Item>)
    requires forall i, j :: 0 <= i < |items| && 0 <= j < |items[i].content| ==> Truthy(items[i].content[j].text)
    ensures Fragments(items) == Flatten(PieceTextValues(items))
    decreases |items|
  {
    if items != [] {
      ContentTextsAllText(items[0].content);
      FragmentsAllText(items[1..]);
      assert PieceTextValues(items)[1..] == PieceTextValues(items[1..]);
    }
  }

  lemma {:induction false} ContentTextsEmptyIff(pieces: seq<Piece>)
    ensures ContentTexts(pieces) == [] <==> forall j :: 0 <= j < |pieces| ==> !Contributes(pieces[j])
    decreases |pieces|
  {
    if pieces != [] {
      ContentTextsEmptyIff(pieces[1..]);
      assert forall j :: 1 <= j < |pieces| ==> pieces[1..][j - 1] == pieces[j];
    }
  }

  /** The scan finds nothing exactly when no piece of any item contributes. */
  lemma {:induction false} FragmentsEmptyIff(items: seq<Item>)
    ensures Fragments(items) == [] <==>
      forall i, j :: 0 <= i < |items| && 0 <= j < |items[i].content| ==> !Contributes(items[i].content[j])
    decreases |items|
  {
    if items != [] {
      FragmentsEmptyIff(items[1..]);
      ContentTextsEmptyIff(items[0].content);
      assert forall i :: 1 <= i < |items| ==> items[1..][i - 1] == items[i];
    }
  }

  /** New SDK priority chain (getDados.py:186-217): a truthy `output_text`,
      else a truthy `text`, else the first candidate's content when there
      are candidates, else the joined fragments when there are any. */
  function NewSdkFound(r: Response): Option<string> {
    if Truthy(r.outputText) then r.outputText
    else if Truthy(r.text) then r.text
    else if r.candidates != [] then r.candidates[0].content
    else if Fragments(r.output) != [] then Some(Join(Fragments(r.output), "\n"))
    else None
  }

  /** Legacy `generate_text` (getDados.py:308-311): the first candidate's content. */
  function GenerateTextFound(r: Response): Option<string> {
    if r.candidates != [] then r.candidates[0].content else None
  }

  /** Legacy `responses` (getDados.py:353-378): a truthy `output_text`, else
      the joined fragments when there are any. */
  function ResponsesFound(r: Response): Option<string> {
    if Truthy(r.outputText) then r.outputText
    else if Fragments(r.output) != [] then Some(Join(Fragments(r.output), "\n"))
    else None
  }

  function Found(api: Api, r: Response): Option<string> {
    match api
    case GenerateContent => NewSdkFound(r)
    case GenerateText => GenerateTextFound(r)
    case ResponsesCreate => ResponsesFound(r)
  }

  /** The text `perguntar` returns for a successful response: what the
      chain found, or `str(resp)` (getDados.py:219-220, 380-381). */
  function ResponseText(api: Api, r: Response): string {
    Found(api, r).GetOr(r.printed)
  }

  /** The extraction as the source runs it: `response_text` starts as None,
      the chain may set it, the scan runs only when the earlier fields gave
      nothing, and `str(resp)` fills a remaining None. */
  method ReadResponse(api: Api, r: Response) returns (text: string)
    ensures text == ResponseText(api, r)
  {
    var found: Option<string> := None;
    if api == GenerateText {
      if r.candidates != [] {
        found := r.candidates[0].content;
      }
    } else if Truthy(r.outputText) {
      found := r.outputText;
    } else if api == GenerateContent && Truthy(r.text) {
      found := r.text;
    } else if api == GenerateContent && r.candidates != [] {
      found := r.candidates[0].content;
    } else {
      var texts := ScanFragments(r.output);
      if texts != [] {
        found := Some(Join(texts, "\n"));
      }
    }
    if found.None? {
      text := r.printed;
    } else {
      text := found.value;
    }
  }

  /** A truthy `output_text` wins over every other field. */
  lemma OutputTextWins(api: Api, r: Response)
    requires api != GenerateText && Truthy(r.outputText)
    ensures ResponseText(api, r) == r.outputText.value
  {
  }

  /** Under the new SDK, `str(resp)` is returned exactly when no field gives
      text: no truthy `output_text` or `text`, and either the first
      candidate has no content or, without candidates, no piece of the
      output contributes. */
  lemma NewSdkFallsBackIff(r: Response)
    ensures NewSdkFound(r).None? <==>
      && !Truthy(r.outputText) && !Truthy(r.text)
      && (if r.candidates != [] then r.candidates[0].content.None?
          else forall i, j :: 0 <= i < |r.output| && 0 <= j < |r.output[i].content| ==> !Contributes(r.output[i].content[j]))
  {
    FragmentsEmptyIff(r.output);
  }

  /** Once there are candidates the fragment scan never runs: the output list
      no longer matters, even when the first candidate has no content. */
  lemma CandidatesShadowOutput(r: Response, other: seq<Item>)
    requires !Truthy(r.outputText) && !Truthy(r.text) && r.candidates != []
    ensures ResponseText(GenerateContent, r) == ResponseText(GenerateContent, r.(output := other))
  {
  }

  /** Collected fragments are joined with "\n" in order: when none holds a
      newline, splitting the answer on "\n" gives the fragments back. */
  lemma FragmentsJoinedInOrder(api: Api, r: Response)
    requires api != GenerateText && !Truthy(r.outputText)
    requires api == GenerateContent ==> !Truthy(r.text) && r.candidates == []
    requires Fragments(r.output) != []
    requires forall k :: 0 <= k < |Fragments(r.output)| ==> '\n' !in Fragments(r.output)[k]
    ensures Split(ResponseText(api, r), '\n') == Fragments(r.output)
  {
    SplitJoin(Fragments(r.output), '\n');
  }

  /** An "output_text" piece without text still counts: the answer is then
      the empty string, not `str(resp)`. */
  lemma EmptyFragmentIsAnAnswer(api: Api, printed: string)
    requires api != GenerateText
    ensures var r := Response(None, None, [], [Item([Piece(Some("output_text"), None)])], printed);
      ResponseText(api, r) == ""
  {
    var items := [Item([Piece(Some("output_text"), None)])];
    assert Fragments(items) == [""] by {
      assert ContentTexts(items[0].content) == [""];
    }
  }
}
