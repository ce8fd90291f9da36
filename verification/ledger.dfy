/** The submissions file: `append_submission` adds one line
    `<dispatcher service name>,<submission id>` per submitted job. */
module Ledger {
  import opened Results
  import opened Text

  /** One line of the submissions file. */
  datatype Entry = Entry(dispatcher: string, submissionId: string)

  /** The text of a line without its newline. */
  function Body(e: Entry): string
  {
    e.dispatcher + "," + e.submissionId
  }

  /** The text `append_submission` writes for one entry. */
  function Line(e: Entry): string
  {
    Body(e) + "\n"
  }

  /** The text of a file the entries were appended to in order, starting
      from an empty file. */
  function Render(es: seq<Entry>): string
    decreases |es|
  {
    if es == [] then "" else Line(es[0]) + Render(es[1..])
  }

  /** Appending one more entry adds exactly its line at the end. */
  lemma {:induction false} RenderAppend(es: seq<Entry>, e: Entry)
    ensures Render(es + [e]) == Render(es) + Line(e)
    decreases |es|
  {
    if es == [] {
      assert es + [e] == [e];
      assert Render([e]) == Line(e) + Render([]);
    } else {
      assert (es + [e])[1..] == es[1..] + [e];
      RenderAppend(es[1..], e);
    }
  }

  /** An entry whose line reads back unambiguously: the service name holds
      no comma and neither field holds a newline. Dispatcher names coming
      out of `parse_dispatcher` never hold a comma. */
  predicate Readable(e: Entry)
  {
    ',' !in e.dispatcher && '\n' !in e.dispatcher && '\n' !in e.submissionId
  }

  /** Reading the file back: newline-terminated lines, each split at its
      first comma. */
  function ReadLedger(content: string): Option<seq<Entry>>
  {
    var lines := Split(content, '\n');
    if lines[|lines| - 1] != "" then None else ReadLines(lines[..|lines| - 1])
  }

  function ReadLines(lines: seq<string>): Option<seq<Entry>>
    decreases |lines|
  {
    if lines == [] then Some([])
    else if ',' !in lines[0] then None
    else
      match ReadLines(lines[1..])
      case None => None
      case Some(rest) =>
        var kv := SplitAtFirst(lines[0], ',');
        Some([Entry(kv.0, kv.1)] + rest)
  }

  function Bodies(es: seq<Entry>): (bodies: seq<string>)
    ensures |bodies| == |es|
    decreases |es|
  {
    if es == [] then [] else [Body(es[0])] + Bodies(es[1..])
  }

  lemma {:induction false} SplitRender(es: seq<Entry>)
    requires forall i :: 0 <= i < |es| ==> Readable(es[i])
    ensures Split(Render(es), '\n') == Bodies(es) + [""]
    decreases |es|
  {
    if es == [] {
      assert Split("", '\n') == [""];
    } else {
      var b := Body(es[0]);
      assert '\n' !in b;
      assert Render(es) == b + ['\n'] + Render(es[1..]);
      SplitAround(b, '\n', Render(es[1..]));
      SplitWithoutSep(b, '\n');
      SplitRender(es[1..]);
    }
  }

  lemma {:induction false} ReadBodies(es: seq<Entry>)
    requires forall i :: 0 <= i < |es| ==> Readable(es[i])
    ensures ReadLines(Bodies(es)) == Some(es)
    decreases |es|
  {
    if es != [] {
      var bodies := Bodies(es);
      assert bodies[0] == es[0].dispatcher + [','] + es[0].submissionId;
      assert bodies[1..] == Bodies(es[1..]);
      SplitAtFirstOf(es[0].dispatcher, es[0].submissionId, ',');
      ReadBodies(es[1..]);
      assert [Entry(es[0].dispatcher, es[0].submissionId)] + es[1..] == es;
    }
  }

  /** The file the driver leaves behind reads back as exactly the entries it
      appended, one line per submitted job, in submission order. */
  lemma ReadRender(es: seq<Entry>)
    requires forall i :: 0 <= i < |es| ==> Readable(es[i])
    ensures ReadLedger(Render(es)) == Some(es)
  {
    SplitRender(es);
    var lines := Bodies(es) + [""];
    assert lines[..|lines| - 1] == Bodies(es);
    ReadBodies(es);
  }

  /** The output file, opened in append mode for every write. */
  class LedgerFile {
    var content: string

    constructor (initial: string)
      ensures content == initial
    {
      content := initial;
    }

    /** `append_submission`: one line at the end, nothing else changes. */
    method Append(dispatcherServiceName: string, submissionId: string)
      modifies this
      ensures content == old(content) + Line(Entry(dispatcherServiceName, submissionId))
    {
      content := content + Line(Entry(dispatcherServiceName, submissionId));
    }
  }
}
