/** The per-job logger: every call appends one entry to the job's log file. */
module JobLog {
  import opened JsText

  datatype Level = Error | Warn | Info | Debug

  function LevelName(level: Level): string {
    match level
    case Error => "ERROR"
    case Warn => "WARN"
    case Info => "INFO"
    case Debug => "DEBUG"
  }

  datatype Entry = Entry(level: Level, message: string)

  /** The line the file transport writes for one entry: the upper-cased level
      in brackets, the message and a line end (timestamp and metadata are not
      part of this model). */
  function LineOf(e: Entry): (line: string)
    ensures line != [] && line[|line| - 1] == '\n'
    ensures Contains(line, e.message)
  {
    var head := "[" + LevelName(e.level) + "] ";
    ContainsInfix(head, e.message, "\n");
    head + e.message + "\n"
  }

  /** The content of the log file after the given entries, oldest first. */
  function TextOf(entries: seq<Entry>): (text: string)
    ensures text == [] <==> entries == []
    ensures text == [] || text[|text| - 1] == '\n'
  {
    if entries == [] then []
    else TextOf(entries[..|entries| - 1]) + LineOf(entries[|entries| - 1])
  }

  /** The file only ever grows by whole lines: the text of `a + b` is the text
      of `a` followed by the text of `b`. */
  lemma {:induction false} TextOfAppend(a: seq<Entry>, b: seq<Entry>)
    ensures TextOf(a + b) == TextOf(a) + TextOf(b)
    decreases |b|
  {
    if b == [] {
      assert a + b == a;
    } else {
      var init, last := b[..|b| - 1], b[|b| - 1];
      TextOfAppend(a, init);
      TextOfAppendStep(a, init, last);
      InitLast(b);
    }
  }

  lemma TextOfAppendStep(a: seq<Entry>, init: seq<Entry>, last: Entry)
    requires TextOf(a + init) == TextOf(a) + TextOf(init)
    ensures TextOf(a + (init + [last])) == TextOf(a) + TextOf(init + [last])
  {
    ConcatAssoc(a, init, [last]);
    SnocParts(a + init, last);
    SnocParts(init, last);
    ConcatAssoc(TextOf(a), TextOf(init), LineOf(last));
  }

  /** A job's logger and the log file it writes. */
  class JobLogger {
    var entries: seq<Entry>

    constructor ()
      ensures entries == []
    {
      entries := [];
    }

    /** The current content of log.txt. */
    function Text(): string
      reads this
    {
      TextOf(entries)
    }

    /** `jobLogger.info(message)`, `.error(…)`, `.warn(…)`, `.debug(…)`. */
    method Log(level: Level, message: string)
      modifies this
      ensures entries == old(entries) + [Entry(level, message)]
    {
      entries := entries + [Entry(level, message)];
    }
  }
}
