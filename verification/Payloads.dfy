/** The bodies that cross the task queue: what the scheduler builds for a batch, what the push
    handler parses, and what it builds in turn for the next item of the chain. */
module Payloads {
  import opened Wrappers

  datatype File = File(id: string, name: string, content: seq<bv8>)

  /** A BatchItem: one file of a batch and the run row created for it. */
  datatype Item = Item(run: nat, fileId: string, fileName: string, mode: string, inline: Option<seq<bv8>>)

  /** An element of `remaining_batch` on the wire: the scheduler sends whole payloads, whose
      further keys the parser drops, and the chain sends bare items. */
  datatype WireItem =
    | Whole(user: string, prompt: string, item: Item)
    | Bare(item: Item)

  /** The JSON body of one task. */
  datatype Body = Body(user: string, prompt: string, item: Item, rest: seq<WireItem>)

  /** The body as the push handler parses it. */
  datatype Payload = Payload(user: string, prompt: string, item: Item, rest: seq<Item>)

  function Items(wire: seq<WireItem>): (items: seq<Item>)
    ensures |items| == |wire|
    ensures forall i :: 0 <= i < |wire| ==> items[i] == wire[i].item
  {
    seq(|wire|, i requires 0 <= i < |wire| => wire[i].item)
  }

  function Parse(body: Body): Payload {
    Payload(body.user, body.prompt, body.item, Items(body.rest))
  }

  /** Files that live only in memory travel inside the payload; others are fetched by id. */
  predicate Inlines(mode: string) {
    mode == "fake" || mode == "ephemeral"
  }

  function ItemFor(run: nat, mode: string, file: File): Item {
    Item(run, file.id, file.name, mode, if Inlines(mode) then Some(file.content) else None)
  }

  /** What an item must carry of its file: id and name in their own fields, and the content exactly for the
      files that live in memory only. */
  predicate Carries(item: Item, run: nat, mode: string, file: File) {
    && item.run == run && item.fileId == file.id && item.fileName == file.name && item.mode == mode
    && item.inline == (if mode == "fake" || mode == "ephemeral" then Some(file.content) else None)
  }

  /** What the task for file `i` of a batch must carry: that file, the files after it in their order, and the
      user and prompt of the request. */
  ghost predicate CarriesFrom(payload: Payload, user: string, prompt: string, first: nat, mode: string,
                              files: seq<File>, i: nat)
    requires i < |files|
  {
    && payload.user == user && payload.prompt == prompt
    && Carries(payload.item, first + i, mode, files[i])
    && |payload.rest| == |files| - i - 1
    && forall k :: 0 <= k < |payload.rest| ==> Carries(payload.rest[k], first + i + 1 + k, mode, files[i + 1 + k])
  }

  function BuildDispatchPayload(user: string, prompt: string, item: Item, rest: seq<WireItem>): Body {
    Body(user, prompt, item, rest)
  }

  /** The body the handler of `payload` enqueues for the next item of the batch. */
  function NextBody(payload: Payload): Body
    requires payload.rest != []
  {
    Body(payload.user, payload.prompt, payload.rest[0],
         seq(|payload.rest| - 1, i requires 0 <= i < |payload.rest| - 1 => Bare(payload.rest[i + 1])))
  }

  /** What a task for item `i` of a batch must carry: that item, and exactly the items after it. */
  function PayloadFor(user: string, prompt: string, items: seq<Item>, i: nat): Payload
    requires i < |items|
  {
    Payload(user, prompt, items[i], items[i + 1..])
  }

  /** The items of a batch whose run rows were created with consecutive ids from `first`. */
  function BatchItems(first: nat, mode: string, files: seq<File>): (items: seq<Item>)
    ensures |items| == |files|
    ensures forall i :: 0 <= i < |files| ==> items[i] == ItemFor(first + i, mode, files[i])
  {
    seq(|files|, i requires 0 <= i < |files| => ItemFor(first + i, mode, files[i]))
  }

  /** The body that `schedule_batch` enqueues for the whole batch. */
  function FirstBody(user: string, prompt: string, items: seq<Item>): Body
    requires items != []
  {
    BuildDispatchPayload(user, prompt, items[0],
      seq(|items| - 1, i requires 0 <= i < |items| - 1 => Whole(user, prompt, items[i + 1])))
  }

  /** The scheduler's body parses to the payload of item 0. */
  lemma FirstBodyCarriesBatch(user: string, prompt: string, items: seq<Item>)
    requires items != []
    ensures Parse(FirstBody(user, prompt, items)) == PayloadFor(user, prompt, items, 0)
  {
    assert Items(FirstBody(user, prompt, items).rest) == items[1..];
  }

  /** Chaining refines scheduling: the body a handler builds for the next item parses to exactly
      the payload the scheduler would have built for that item directly. */
  lemma NextBodyRefinesDirect(user: string, prompt: string, items: seq<Item>, i: nat)
    requires i + 1 < |items|
    ensures PayloadFor(user, prompt, items, i).rest != []
    ensures Parse(NextBody(PayloadFor(user, prompt, items, i))) == PayloadFor(user, prompt, items, i + 1)
  {
    var next := NextBody(PayloadFor(user, prompt, items, i));
    assert Items(next.rest) == items[i + 2..];
  }

  lemma ItemsCarry(user: string, prompt: string, first: nat, mode: string, files: seq<File>, i: nat)
    requires i < |files|
    ensures CarriesFrom(PayloadFor(user, prompt, BatchItems(first, mode, files), i),
                        user, prompt, first, mode, files, i)
  {
  }
}
