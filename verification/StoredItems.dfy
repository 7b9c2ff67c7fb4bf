/** Stored conversation items (appserver/store), and the order in which they are replayed
    (appserver/runtime_history.go). A steer item records the store sequence number after
    which the model saw it. */
module StoredItems {
  import opened Transcript
  import opened StableSort

  datatype Kind = Injected | Compacted | Chat | Steered | DynamicTool | Command | FileChange | McpTool | Other

  datatype Status = Queued | Completed | Failed

  datatype Speech = FromUser(text: string) | FromSystem(text: string) | FromAssistant(text: string)

  datatype Record = Record(tool: string, args: string, output: string, success: bool)

  /** `boundary` is a steer payload's consumedAfterSeq, `size` the length of the payload;
      `speech` and `record` are what the payload decodes to, if it does. */
  datatype Item = Item(
    seqno: nat, kind: Kind, status: Status, boundary: nat,
    id: string, parent: string, size: nat, speech: Option<Speech>, record: Option<Record>)

  /* ----- replay order ----- */

  /** A steer that the model has seen: complete, with a sound boundary. */
  predicate Seen(x: Item) {
    x.kind.Steered? && x.status.Completed? && x.boundary >= x.seqno && x.boundary > 0
  }

  /** runtimeReplayOrder: a consumed steer comes after the item at its boundary. */
  function Rank(x: Option<Item>): (nat, bool) {
    if x.None? then (0, false) else if Seen(x.value) then (x.value.boundary, true) else (x.value.seqno, false)
  }

  predicate Less(x: Option<Item>, y: Option<Item>) {
    var (a, after), (b, after') := Rank(x), Rank(y);
    if a != b then a < b else !after && after'
  }

  /** The rank as one number. */
  function Key(x: Option<Item>): int {
    2 * Rank(x).0 + if Rank(x).1 then 1 else 0
  }

  lemma LessIsKey(x: Option<Item>, y: Option<Item>)
    ensures Less(x, y) <==> Key(x) < Key(y)
  {
  }

  /** runtimeItemsInReplayOrder: a stable sort by rank. */
  function ReplayOrder(items: seq<Option<Item>>): (r: seq<Option<Item>>) {
    Sort(Key, items)
  }

  /** The replayed items are the stored ones, none ranking below one in front of it. */
  lemma ReplayOrderSorts(items: seq<Option<Item>>)
    ensures forall p, q :: 0 <= p < q < |ReplayOrder(items)| ==> !Less(ReplayOrder(items)[q], ReplayOrder(items)[p])
    ensures multiset(ReplayOrder(items)) == multiset(items)
  {
    SortSorts(Key, items);
    SortMembers(Key, items);
    var r := ReplayOrder(items);
    forall p, q | 0 <= p < q < |r| ensures !Less(r[q], r[p]) {
      LessIsKey(r[q], r[p]);
    }
  }

  /** The sort is stable: x precedes y if it ranks lower, or equal and came first. */
  lemma ReplayOrderPlaces(items: seq<Option<Item>>, i: nat, j: nat)
    requires i < |items| && j < |items|
    requires Less(items[i], items[j]) || (i < j && !Less(items[j], items[i]))
    ensures Before(ReplayOrder(items), items[i], items[j])
  {
    LessIsKey(items[i], items[j]);
    LessIsKey(items[j], items[i]);
    SortPlaces(Key, items, i, j);
  }
}
