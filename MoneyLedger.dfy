/** The money ledger and the partner balance it accounts for. Approval and sale postings raise
    a partner's balance by their amount; a manual entry lowers it by its amount whatever its
    type. */
module MoneyLedger {
  import opened Schema

  /** The signed change a ledger row makes to its partner's balance. */
  function Effect(row: MoneyRow): real
  {
    if row.posting.Manual? then -row.amount else row.amount
  }

  /** The balance the ledger accounts for partner `p`: the signed effects of its rows. */
  function Net(rows: seq<MoneyRow>, p: nat): real
  {
    if rows == [] then 0.0
    else
      var last := rows[|rows| - 1];
      Net(rows[..|rows| - 1], p) + (if last.partner == p then Effect(last) else 0.0)
  }

  /** The three writers of the ledger. */
  datatype Writer = ApprovalWriter | SaleWriter | ManualWriter

  function WriterOf(posting: Posting): Writer
  {
    match posting
    case ApprovalPosting => ApprovalWriter
    case SalePosting => SaleWriter
    case Manual(_) => ManualWriter
  }

  /** Sum of the amounts of partner `p`'s rows written by `w`. */
  function PostedBy(rows: seq<MoneyRow>, p: nat, w: Writer): real
  {
    if rows == [] then 0.0
    else
      var last := rows[|rows| - 1];
      PostedBy(rows[..|rows| - 1], p, w)
        + (if last.partner == p && WriterOf(last.posting) == w then last.amount else 0.0)
  }

  /** The balance equation: approved purchase totals plus sale totals less the amounts of the
      manual entries, payments and receipts alike. */
  lemma {:induction false} NetDecomposes(rows: seq<MoneyRow>, p: nat)
    ensures Net(rows, p) == PostedBy(rows, p, ApprovalWriter) + PostedBy(rows, p, SaleWriter)
            - PostedBy(rows, p, ManualWriter)
  {
    if rows != [] {
      NetDecomposes(rows[..|rows| - 1], p);
    }
  }

  /** Appending a row moves only its own partner's account, by the row's effect. */
  lemma NetAppend(rows: seq<MoneyRow>, row: MoneyRow, p: nat)
    ensures Net(rows + [row], p) == Net(rows, p) + (if row.partner == p then Effect(row) else 0.0)
  {
    assert (rows + [row])[..|rows|] == rows;
  }

  /** A partner without rows has a zero account. */
  lemma {:induction false} NetOfStranger(rows: seq<MoneyRow>, p: nat)
    requires forall k :: 0 <= k < |rows| ==> rows[k].partner != p
    ensures Net(rows, p) == 0.0
  {
    if rows != [] {
      NetOfStranger(rows[..|rows| - 1], p);
    }
  }
}
