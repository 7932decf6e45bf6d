/** conversation.py: loading a JSON store with a default that depends on the
    file's name. The file itself is abstract: its state is an input. */
module Conversation {
  import opened JsonValue

  /** A pathlib path as its parts; parsing a path string is not modelled. */
  datatype Path = Path(absolute: bool, parts: seq<string>)

  /** `Path.name`: the final component, "" for a path with none. */
  function Name(p: Path): string {
    if p.parts == [] then "" else p.parts[|p.parts| - 1]
  }

  const RequestsName: string := "requests.json"

  /** What reading the file would do: it is absent, `json.load` raises
      `JSONDecodeError`, opening or reading raises `OSError`, something else
      raises (a `UnicodeDecodeError`, say), or it parses to a value. */
  datatype FileState =
    | Missing
    | Undecodable
    | Unreadable
    | OtherError
    | Readable(content: Json)

  datatype LoadResult = Loaded(value: Json) | Raised

  /** The fallback value: an empty list for a file named requests.json, an
      empty object for any other name. */
  function DefaultFor(p: Path): (v: Json)
    ensures v == JList([]) <==> Name(p) == RequestsName
    ensures Name(p) != RequestsName ==> v == JObject(map[])
  {
    if Name(p) != RequestsName then JObject(map[]) else JList([])
  }

  /** `_load_json(path)`. */
  function LoadJson(p: Path, f: FileState): (r: LoadResult)
    ensures f.Readable? ==> r == Loaded(f.content)
    ensures f.Missing? || f.Undecodable? || f.Unreadable? ==> r == Loaded(DefaultFor(p))
    ensures r.Raised? <==> f.OtherError?
  {
    match f
    case Missing => Loaded(DefaultFor(p))
    case Readable(v) => Loaded(v)
    case Undecodable => Loaded(DefaultFor(p))
    case Unreadable => Loaded(DefaultFor(p))
    case OtherError => Raised
  }

  /** The path bot.py writes tickets to (relative) and the one reply.py reads
      them from (absolute). */
  const WriterPath: Path := Path(false, ["data", "requests.json"])
  const ReaderPath: Path := Path(true, ["data", "requests.json"])

  /** The two ticket paths are different files unless the working directory is
      the root, but both fall back to an empty list. */
  lemma StorePathsDifferButShareDefault(f: FileState)
    requires !f.Readable? && !f.OtherError?
    ensures WriterPath != ReaderPath
    ensures LoadJson(WriterPath, f) == LoadJson(ReaderPath, f) == Loaded(JList([]))
  {
  }

  /** Only the last path component decides the fallback. */
  lemma DefaultDependsOnNameOnly(p: Path, q: Path, f: FileState)
    requires Name(p) == Name(q)
    ensures LoadJson(p, f) == LoadJson(q, f)
  {
  }
}
