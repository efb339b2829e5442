/** What a publication consists of: three parts with fixed data, and the record that selects them. */
module Publication {
  import opened Text

  datatype Part = Main | Daily | Bytecode

  const PARTS := [Main, Daily, Bytecode]

  function PartName(part: Part): string {
    match part
    case Main => "main"
    case Daily => "daily"
    case Bytecode => "bytecode"
  }

  function Decimal(n: nat): string {
    (if n < 10 then "" else Decimal(n / 10)) + [('0' as int + n % 10) as char]
  }

  /** What a publisher writes into a part. */
  function Data(sequence: nat, part: Part): string {
    Decimal(sequence) + ":" + PartName(part)
  }

  type Directory = map<Part, string>

  /** The record in state.json. A generation is named by its sequence number. */
  datatype State = State(generation: nat, hashes: map<Part, string>)

  /** SHA-256 and the JSON text of a record. */
  datatype Platform = Platform(sha: string -> string, dump: State -> string, load: string -> Option<State>) {
    /** What is dumped loads as it was. */
    ghost predicate Honest() {
      forall s: State :: load(dump(s)) == Some(s)
    }
  }

  function StateOf(p: Platform, n: nat): State {
    State(n, map[Main := p.sha(Data(n, Main)), Daily := p.sha(Data(n, Daily)), Bytecode := p.sha(Data(n, Bytecode))])
  }

  // ----- texts written bit by bit -----

  lemma NothingYet(text: string)
    ensures "" + text == text && text + "" == text
  {
  }

  lemma OneMore(text: string, left: string, c: nat)
    requires c <= |left|
    ensures (text + left[..c]) + left[c..] == text + left
  {
  }
}
