/** Values the ledgers and the pages pass between them: an optional value
    (`null`, `undefined` or a missing field is `None`) and the results
    payload both ledgers answer with. */
module Common {

  datatype Option<+T> = None | Some(value: T)

  /** The results payload of both ledgers. It has no field for voter ids. */
  datatype Summary = Summary(
    question: string,
    options: seq<string>,
    votes: map<int, nat>,
    totalVotes: nat,
    multipleChoice: bool,
    createdAt: int)
}
