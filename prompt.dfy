/**
 * `make_rag_prompt`: the references block (the references joined by newlines, or a
 * fixed placeholder when there are none) and the fixed prompt template around the
 * question and that block. The template is a pure function of the query and the
 * references; only the search that produces the references is a method.
 */
module Prompt {
  import opened Wrappers
  import opened Text
  import Search

  const Instructions :=
    "You are an intelligent assistant that answers questions using only online references. "
    + "Please answer the question by using information from online resources. "
    + "Make sure your answer is accurate, well-rounded, and integrates the information effectively."

  const NoReferences := "No online references found."

  const QuestionStart := "QUESTION: '"

  const ReferencesHeader := "ONLINE REFERENCES:"

  const AnswerCue := "ANSWER:"

  function QuestionLine(query: string): string {
    QuestionStart + query + "'"
  }

  /** The references joined by newlines, or the placeholder when the list is empty. */
  function ReferencesBlock(refs: seq<string>): string {
    if refs == [] then NoReferences else Join(refs)
  }

  /** The prompt sent to the model for `query` and the references found for it. */
  function RagPrompt(query: string, refs: seq<string>): string {
    Instructions + "\n\n"
    + QuestionLine(query) + "\n"
    + ReferencesHeader + "\n" + ReferencesBlock(refs) + "\n\n"
    + AnswerCue
  }

  /** `make_rag_prompt`: searches, then fills the template; the references are returned unchanged. */
  method MakeRagPrompt(query: string, apiKey: Option<string>, cseId: Option<string>, fetch: Search.Fetch)
    returns (prompt: string, refs: seq<string>)
    ensures refs == Search.SearchReferences(apiKey, cseId, fetch)
    ensures prompt == RagPrompt(query, refs)
  {
    var notice;
    refs, notice := Search.SearchOnline(apiKey, cseId, fetch);
    prompt := RagPrompt(query, refs);
  }

  // Reading a prompt back.

  /** What a prompt says: the question asked and the references it cites. */
  datatype Reading = Reading(question: string, references: seq<Search.Shown>)

  /** The fixed text in front of the question line. */
  const Opening := Instructions + "\n\n"

  /**
   * Recovers the question and the cited references from a prompt: after the fixed
   * opening, the question line, the header, the block's lines, a blank line and the cue.
   */
  function ReadPrompt(prompt: string): Option<Reading> {
    if |prompt| < |Opening| || prompt[..|Opening|] != Opening then None
    else
      var lines := Lines(prompt[|Opening|..]);
      if |lines| < 4 || !IsQuestionLine(lines[0]) || lines[1] != ReferencesHeader
         || lines[|lines| - 2] != "" || lines[|lines| - 1] != AnswerCue then None
      else
        var q := lines[0];
        Some(Reading(q[|QuestionStart|..|q| - 1], Search.ReadReferences(lines[2..|lines| - 2])))
  }

  /** A line shaped like `QUESTION: '<query>'`. */
  predicate IsQuestionLine(line: string) {
    |line| > |QuestionStart| && line[..|QuestionStart|] == QuestionStart && line[|line| - 1] == '\''
  }

  /** The block is the placeholder exactly when there are no search items. */
  lemma PlaceholderIffNoItems(items: seq<Search.SearchItem>)
    ensures ReferencesBlock(Search.References(items)) == NoReferences <==> items == []
  {
    if items != [] {
      var refs := Search.References(items);
      var first := Search.Reference(items[0]);
      assert first[0] == '*';
      assert Join(refs)[0] == first[0] by {
        if |refs| > 1 {
          assert Join(refs) == first + "\n" + Join(refs[1..]);
        }
      }
      assert NoReferences[0] == 'N';
    }
  }

  /** After the opening, the prompt's lines are the question, the header, the block, a blank line and the cue. */
  lemma PromptLines(query: string, refs: seq<string>)
    requires OneLine(query)
    ensures RagPrompt(query, refs)[..|Opening|] == Opening
    ensures Lines(RagPrompt(query, refs)[|Opening|..]) ==
            [QuestionLine(query), ReferencesHeader] + Lines(ReferencesBlock(refs)) + ["", AnswerCue]
  {
    var rest := QuestionLine(query) + "\n" + ReferencesHeader + "\n" + ReferencesBlock(refs) + "\n\n" + AnswerCue;
    TemplateShape(Instructions, "\n\n", QuestionLine(query), "\n", ReferencesHeader, "\n", ReferencesBlock(refs), "\n\n", AnswerCue);
    SliceAt(Opening, rest);
    FixedLinesAreOneLine();
    TemplateLines(QuestionLine(query), ReferencesHeader, ReferencesBlock(refs), AnswerCue);
  }

  /** The template regrouped as its opening followed by the rest. */
  lemma TemplateShape(intro: string, gap: string, question: string, nl1: string, header: string, nl2: string,
                      block: string, gap2: string, cue: string)
    ensures intro + gap + question + nl1 + header + nl2 + block + gap2 + cue
         == (intro + gap) + (question + nl1 + header + nl2 + block + gap2 + cue)
  {
  }

  lemma SliceAt(x: string, y: string)
    ensures (x + y)[..|x|] == x && (x + y)[|x|..] == y
  {
  }

  lemma FixedLinesAreOneLine()
    ensures OneLine(ReferencesHeader) && OneLine(AnswerCue)
  {
  }

  /** The line structure of the template after its opening, for any one-line pieces around any block. */
  lemma TemplateLines(question: string, header: string, block: string, cue: string)
    requires OneLine(question) && OneLine(header) && OneLine(cue)
    ensures Lines(question + "\n" + header + "\n" + block + "\n\n" + cue) ==
            [question, header] + Lines(block) + ["", cue]
  {
    var tail := "" + "\n" + cue;
    var fromBlock := block + "\n" + tail;
    var fromHeader := header + "\n" + fromBlock;
    assert "\n\n" == "\n" + "" + "\n";
    assert question + "\n" + header + "\n" + block + "\n\n" + cue == question + "\n" + fromHeader;
    LinesOfOneLine("");
    LinesOfOneLine(cue);
    LinesAround("", cue);
    LinesAround(block, tail);
    LinesOfOneLine(header);
    LinesAround(header, fromBlock);
    LinesOfOneLine(question);
    LinesAround(question, fromHeader);
  }

  /** The references block reads back as the displayed values of the items, in order. */
  lemma BlockReadsBack(items: seq<Search.SearchItem>)
    requires Search.AllOneLine(items)
    ensures Search.ReadReferences(Lines(ReferencesBlock(Search.References(items)))) == Search.ShownAll(items)
  {
    if items == [] {
      LinesOfOneLine(NoReferences);
    } else {
      LinesOfJoin(Search.References(items));
      Search.ReferencesReadBack(items);
    }
  }

  /** A prompt reads back as its question and the displayed values of the search items, in order. */
  lemma PromptReadsBack(query: string, items: seq<Search.SearchItem>)
    requires OneLine(query) && Search.AllOneLine(items)
    ensures ReadPrompt(RagPrompt(query, Search.References(items))) == Some(Reading(query, Search.ShownAll(items)))
  {
    var refs := Search.References(items);
    var blockLines := Lines(ReferencesBlock(refs));
    PromptLines(query, refs);
    var lines := [QuestionLine(query), ReferencesHeader] + blockLines + ["", AnswerCue];
    assert lines[2..|lines| - 2] == blockLines;
    QuestionLineReadsBack(query);
    BlockReadsBack(items);
  }

  /** The question line has the shape the reader looks for, and the query comes back out of it. */
  lemma QuestionLineReadsBack(query: string)
    ensures IsQuestionLine(QuestionLine(query))
    ensures QuestionLine(query)[|QuestionStart|..|QuestionLine(query)| - 1] == query
  {
    var line := QuestionLine(query);
    assert line[..|QuestionStart|] == QuestionStart;
    assert line[|QuestionStart|..|line| - 1] == query;
  }

  /**
   * For any one-line query and at least one search item, whatever the items' fields hold,
   * the references' lines stand between the header and the cue in the order of the items.
   */
  lemma PromptKeepsReferenceOrder(query: string, items: seq<Search.SearchItem>)
    requires OneLine(query) && items != []
    ensures Lines(RagPrompt(query, Search.References(items))[|Opening|..]) ==
            [QuestionLine(query), ReferencesHeader] + LinesOfEach(Search.References(items)) + ["", AnswerCue]
  {
    PromptLines(query, Search.References(items));
    LinesOfJoin(Search.References(items));
  }
}
