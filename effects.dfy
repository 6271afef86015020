/** The file-system side effects of a command, recorded in the order they are requested. */
module Effects {
  import opened Json

  /** One whole-file replacement of a JSON configuration file. */
  datatype Write = Write(path: string, contents: map<string, Value>)

  /** One request to the file system: `mkdirp(path)` or `fs.writeFileSync`. */
  datatype Event = Made(path: string) | Wrote(write: Write)

  /** One `mkdirp` per path, in order. */
  function Mkdirs(paths: seq<string>): (events: seq<Event>)
    ensures |events| == |paths|
    ensures forall i | 0 <= i < |paths| :: events[i] == Made(paths[i])
  {
    seq(|paths|, i requires 0 <= i < |paths| => Made(paths[i]))
  }

  /** Making two runs of directories is making their concatenation. */
  lemma MkdirsAppend(a: seq<string>, b: seq<string>)
    ensures Mkdirs(a + b) == Mkdirs(a) + Mkdirs(b)
  {
  }

  class FileSystem {
    /** Every `mkdirp` and every JSON file write, in the order requested. */
    var events: seq<Event>

    constructor ()
      ensures events == []
    {
      events := [];
    }

    /** `mkdirp(path)`: ensure a directory and its ancestors exist. */
    method Mkdirp(path: string)
      modifies this
      ensures events == old(events) + [Made(path)]
    {
      events := events + [Made(path)];
    }

    /** `fs.writeFileSync(path, JSON.stringify(contents))`. */
    method WriteJson(path: string, contents: map<string, Value>)
      modifies this
      ensures events == old(events) + [Wrote(Write(path, contents))]
    {
      events := events + [Wrote(Write(path, contents))];
    }
  }
}
