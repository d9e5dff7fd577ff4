/**
 * What the three mutation observers of the content script and the two passes over
 * existing messages do with the nodes they are handed: classify each node by its exact tag
 * name and run the matching extract function on it, in order.
 */
module Dispatch {
  import opened Wrappers
  import opened Text
  import opened ExchangeRate
  import opened Dom
  import opened Annotation

  const PaidMessageTag: string := "YT-LIVE-CHAT-PAID-MESSAGE-RENDERER"
  const PaidStickerTag: string := "YT-LIVE-CHAT-PAID-STICKER-RENDERER"
  const MembershipTag: string := "YT-LIVE-CHAT-MEMBERSHIP-ITEM-RENDERER"
  const DialogTag: string := "TP-YT-PAPER-DIALOG"

  /** What a node is taken for. */
  datatype Kind = PaidMessage | PaidSticker | Membership | Dialog | Other

  /**
   * The three observers: the one on the `#items` list, the one on the chat document's body
   * that waits for dialogs, and the one inside each dialog.
   */
  datatype Watcher = ItemList | DialogOpened | DialogContent

  /**
   * The tag test of a watcher's callback on one added node. Only element nodes are looked
   * at, and tag names are compared exactly, in upper case.
   */
  function Classify(w: Watcher, node: Node): (k: Kind)
    ensures k == PaidMessage <==> w != DialogOpened && node.nodeType == ElementNode && node.tagName == PaidMessageTag
    ensures k == PaidSticker <==> w != DialogOpened && node.nodeType == ElementNode && node.tagName == PaidStickerTag
    ensures k == Membership <==> w == ItemList && node.nodeType == ElementNode && node.tagName == MembershipTag
    ensures k == Dialog <==> w == DialogOpened && node.nodeType == ElementNode && node.tagName == DialogTag
  {
    if node.nodeType != ElementNode then Other
    else
      match w
      case ItemList =>
        if node.tagName == PaidMessageTag then PaidMessage
        else if node.tagName == PaidStickerTag then PaidSticker
        else if node.tagName == MembershipTag then Membership
        else Other
      case DialogContent =>
        if node.tagName == PaidMessageTag then PaidMessage
        else if node.tagName == PaidStickerTag then PaidSticker
        else Other
      case DialogOpened =>
        if node.tagName == DialogTag then Dialog else Other
  }

  /** The dialog-content observer is the list observer without the membership case. */
  lemma DialogContentNarrowsItemList(node: Node)
    ensures Classify(DialogContent, node) ==
              if Classify(ItemList, node) == Membership then Other else Classify(ItemList, node)
  {
  }

  /** One extract call to make: which extract function, on which node. */
  datatype Job = Job(kind: Kind, node: Node)

  /** The element the job writes, if any: only the two paid kinds write. */
  function Written(job: Job): Node? {
    match job.kind
    case PaidMessage => SuperChatAmountElement(job.node)
    case PaidSticker => StickerAmountElement(job.node)
    case _ => null
  }

  /** Every element a run of jobs may write. */
  function Writes(jobs: seq<Job>): set<Node> {
    if jobs == [] then {} else Writes(jobs[..|jobs| - 1]) + Footprint(Written(jobs[|jobs| - 1]))
  }

  /** Nothing outside the jobs' own elements is written. */
  lemma {:induction false} WritesAreWritten(jobs: seq<Job>, e: Node)
    requires e in Writes(jobs)
    ensures exists x :: 0 <= x < |jobs| && Written(jobs[x]) == e
  {
    var last := |jobs| - 1;
    if e in Writes(jobs[..last]) {
      WritesAreWritten(jobs[..last], e);
      var x :| 0 <= x < last && Written(jobs[..last][x]) == e;
      assert jobs[..last][x] == jobs[x];
    } else {
      assert Written(jobs[last]) == e;
    }
  }

  /** Every element a job writes is among the elements of the run. */
  lemma {:induction false} WrittenInWrites(jobs: seq<Job>)
    ensures forall x :: 0 <= x < |jobs| && Written(jobs[x]) != null ==> Written(jobs[x]) in Writes(jobs)
  {
    if jobs != [] {
      var init := jobs[..|jobs| - 1];
      WrittenInWrites(init);
      assert forall x :: 0 <= x < |init| ==> init[x] == jobs[x];
    }
  }

  lemma {:induction false} WritesPrefix(jobs: seq<Job>, i: nat)
    requires i <= |jobs|
    ensures Writes(jobs[..i]) <= Writes(jobs)
    decreases |jobs|
  {
    if i < |jobs| {
      var last := |jobs| - 1;
      assert jobs[..last][..i] == jobs[..i];
      WritesPrefix(jobs[..last], i);
    } else {
      assert jobs[..i] == jobs;
    }
  }

  /** The elements of the first `i + 1` jobs are those of the first `i` and the next one's. */
  lemma WritesStep(jobs: seq<Job>, i: nat)
    requires i < |jobs|
    ensures Writes(jobs[..i + 1]) == Writes(jobs[..i]) + Footprint(Written(jobs[i]))
    ensures Writes(jobs[..i + 1]) <= Writes(jobs)
  {
    assert jobs[..i + 1][..i] == jobs[..i];
    WritesPrefix(jobs, i + 1);
  }

  /** The jobs a watcher's callback makes of a list of added nodes. */
  function Classified(w: Watcher, nodes: seq<Node>): seq<Job> {
    if nodes == [] then [] else [Job(Classify(w, nodes[0]), nodes[0])] + Classified(w, nodes[1..])
  }

  /** One job per added node, in order, of the kind the node's tag calls for. */
  lemma {:induction false} ClassifiedJobs(w: Watcher, nodes: seq<Node>)
    ensures var jobs := Classified(w, nodes);
            |jobs| == |nodes| && forall x :: 0 <= x < |nodes| ==> jobs[x] == Job(Classify(w, nodes[x]), nodes[x])
  {
    if nodes != [] {
      ClassifiedJobs(w, nodes[1..]);
      var jobs := Classified(w, nodes);
      assert forall x :: 0 < x < |nodes| ==> jobs[x] == Classified(w, nodes[1..])[x - 1];
    }
  }

  /** The jobs of a `forEach` that runs one extract function on every node. */
  function Uniform(kind: Kind, nodes: seq<Node>): seq<Job> {
    if nodes == [] then [] else [Job(kind, nodes[0])] + Uniform(kind, nodes[1..])
  }

  /** One job of the given kind per node, in order. */
  lemma {:induction false} UniformJobs(kind: Kind, nodes: seq<Node>)
    ensures var jobs := Uniform(kind, nodes);
            |jobs| == |nodes| && forall x :: 0 <= x < |nodes| ==> jobs[x] == Job(kind, nodes[x])
  {
    if nodes != [] {
      UniformJobs(kind, nodes[1..]);
      var jobs := Uniform(kind, nodes);
      assert forall x :: 0 < x < |nodes| ==> jobs[x] == Uniform(kind, nodes[1..])[x - 1];
    }
  }

  /** One extract call, the membership one included, by kind; other kinds do nothing. */
  method Extract(job: Job, rates: RateCache)
    modifies Footprint(Written(job))
    ensures var e := Written(job);
            e != null ==> e.textContent == AnnotateText(old(e.textContent), rates.rates).text
  {
    match job.kind {
      case PaidMessage =>
        var _ := ExtractSuperChatAmount(job.node, rates);
      case PaidSticker =>
        var _ := ExtractSuperStickerAmount(job.node, rates);
      case Membership =>
        var _ := ExtractMembershipInfo(job.node);
      case _ =>
    }
  }

  /**
   * The jobs run one after the other. Every element written ends up annotated exactly as
   * one extract call would leave it, however many jobs reach it.
   */
  method ExtractEach(jobs: seq<Job>, rates: RateCache)
    modifies Writes(jobs)
    ensures forall e :: e in Writes(jobs) && old(allocated(e)) ==>
              e.textContent == AnnotateText(old(e.textContent), rates.rates).text
    ensures forall e :: e in Writes(jobs) && old(allocated(e)) ==>
              AnnotateText(e.textContent, rates.rates).text == e.textContent
  {
    var i := 0;
    ghost var done: set<Node> := {};
    while i < |jobs|
      invariant 0 <= i <= |jobs|
      invariant done == Writes(jobs[..i]) && done <= Writes(jobs)
      invariant forall e :: e in done && old(allocated(e)) ==>
                  e.textContent == AnnotateText(old(e.textContent), rates.rates).text
      invariant forall e :: e in done && old(allocated(e)) ==>
                  AnnotateText(e.textContent, rates.rates).text == e.textContent
      invariant forall e :: e in Writes(jobs) && e !in done && old(allocated(e)) ==> e.textContent == old(e.textContent)
    {
      var e := Written(jobs[i]);
      WritesStep(jobs, i);
      if e != null && old(allocated(e)) {
        AnnotateIdempotent(old(e.textContent), rates.rates);
      }
      Extract(jobs[i], rates);
      done := done + Footprint(e);
      i := i + 1;
    }
    assert jobs[..i] == jobs;
  }

  /** Only element nodes whose tag is one of the two paid tags lead to a write. */
  lemma OnlyPaidTagsWritten(w: Watcher, nodes: seq<Node>, e: Node)
    requires e in Writes(Classified(w, nodes))
    ensures exists x :: 0 <= x < |nodes| && nodes[x].nodeType == ElementNode &&
                        (nodes[x].tagName == PaidMessageTag || nodes[x].tagName == PaidStickerTag) &&
                        e == Written(Job(Classify(w, nodes[x]), nodes[x]))
  {
    WritesAreWritten(Classified(w, nodes), e);
    ClassifiedJobs(w, nodes);
  }

  /**
   * The dialog-content observer writes exactly the elements the list observer would write
   * for the same nodes: the membership case it lacks writes nothing.
   */
  lemma DialogContentWritesAsItemList(nodes: seq<Node>)
    ensures Writes(Classified(DialogContent, nodes)) == Writes(Classified(ItemList, nodes))
  {
    var a, b := Classified(DialogContent, nodes), Classified(ItemList, nodes);
    ClassifiedJobs(DialogContent, nodes);
    ClassifiedJobs(ItemList, nodes);
    assert forall x :: 0 <= x < |nodes| ==> Written(a[x]) == Written(b[x]) by {
      forall x | 0 <= x < |nodes| ensures Written(a[x]) == Written(b[x]) {
        DialogContentNarrowsItemList(nodes[x]);
      }
    }
    WrittenInWrites(a);
    WrittenInWrites(b);
    forall e | e in Writes(a) ensures e in Writes(b) {
      WritesAreWritten(a, e);
    }
    forall e | e in Writes(b) ensures e in Writes(a) {
      WritesAreWritten(b, e);
    }
  }

  /** The membership pass writes nothing. */
  lemma MembershipWritesNothing(nodes: seq<Node>)
    ensures Writes(Uniform(Membership, nodes)) == {}
  {
    UniformJobs(Membership, nodes);
    forall e | e in Writes(Uniform(Membership, nodes)) ensures false {
      WritesAreWritten(Uniform(Membership, nodes), e);
    }
  }

  /** Every element the callback of watcher `w` may write for a list of mutation records. */
  function RecordWrites(w: Watcher, records: seq<seq<Node>>): set<Node> {
    if records == [] then {}
    else RecordWrites(w, records[..|records| - 1]) + Writes(Classified(w, records[|records| - 1]))
  }

  lemma {:induction false} RecordWritesPrefix(w: Watcher, records: seq<seq<Node>>, i: nat)
    requires i <= |records|
    ensures RecordWrites(w, records[..i]) <= RecordWrites(w, records)
    decreases |records|
  {
    if i < |records| {
      var last := |records| - 1;
      assert records[..last][..i] == records[..i];
      RecordWritesPrefix(w, records[..last], i);
    } else {
      assert records[..i] == records;
    }
  }

  /** The elements of the first `i + 1` records are those of the first `i` and the next one's. */
  lemma RecordWritesStep(w: Watcher, records: seq<seq<Node>>, i: nat)
    requires i < |records|
    ensures RecordWrites(w, records[..i + 1]) == RecordWrites(w, records[..i]) + Writes(Classified(w, records[i]))
    ensures RecordWrites(w, records[..i + 1]) <= RecordWrites(w, records)
  {
    assert records[..i + 1][..i] == records[..i];
    RecordWritesPrefix(w, records, i + 1);
  }

  /**
   * The callback of the list observer (`w == ItemList`) or of a dialog's content observer
   * (`w == DialogContent`): for each mutation record, for each added node, the extract
   * function its tag calls for. Every element written ends up annotated once.
   */
  method OnAddedNodes(w: Watcher, records: seq<seq<Node>>, rates: RateCache)
    requires w != DialogOpened
    modifies RecordWrites(w, records)
    ensures forall e :: e in RecordWrites(w, records) && old(allocated(e)) ==>
              e.textContent == AnnotateText(old(e.textContent), rates.rates).text
  {
    var i := 0;
    ghost var done: set<Node> := {};
    while i < |records|
      invariant 0 <= i <= |records|
      invariant done == RecordWrites(w, records[..i]) && done <= RecordWrites(w, records)
      invariant forall e :: e in done && old(allocated(e)) ==>
                  e.textContent == AnnotateText(old(e.textContent), rates.rates).text
      invariant forall e :: e in done && old(allocated(e)) ==>
                  AnnotateText(e.textContent, rates.rates).text == e.textContent
      invariant forall e :: e in RecordWrites(w, records) && e !in done && old(allocated(e)) ==>
                  e.textContent == old(e.textContent)
    {
      var jobs := Classified(w, records[i]);
      RecordWritesStep(w, records, i);
      ExtractEach(jobs, rates);
      done := done + Writes(jobs);
      i := i + 1;
    }
    assert records[..i] == records;
  }

  /** The jobs of the `forEach` passes over the paid messages and stickers below `root`. */
  function PaidJobs(root: Node): seq<Job> {
    Uniform(PaidMessage, QuerySelectorAll(root, Tag("yt-live-chat-paid-message-renderer")))
  }

  function StickerJobs(root: Node): seq<Job> {
    Uniform(PaidSticker, QuerySelectorAll(root, Tag("yt-live-chat-paid-sticker-renderer")))
  }

  /** Every element a pass over the paid messages and stickers below `root` may write. */
  function PassWrites(root: Node): set<Node> {
    Writes(PaidJobs(root)) + Writes(StickerJobs(root))
  }

  /**
   * The paid-message pass, then the sticker pass, over the messages below `root`. An element
   * both passes reach is annotated once.
   */
  method ExtractPaid(root: Node, rates: RateCache)
    modifies PassWrites(root)
    ensures forall e :: e in PassWrites(root) && old(allocated(e)) ==>
              e.textContent == AnnotateText(old(e.textContent), rates.rates).text
    ensures forall e :: e in PassWrites(root) && old(allocated(e)) ==>
              AnnotateText(e.textContent, rates.rates).text == e.textContent
  {
    var paid := PaidJobs(root);
    ExtractEach(paid, rates);
    ExtractEach(StickerJobs(root), rates);
  }

  /**
   * `processExistingSuperChats(container)`: nothing without a container; otherwise the
   * paid messages, the stickers and the membership items already below it, in that order.
   * The membership pass writes nothing.
   */
  method ProcessExistingSuperChats(container: Node?, rates: RateCache)
    modifies if container == null then {} else PassWrites(container)
    ensures container != null ==>
              forall e :: e in PassWrites(container) && old(allocated(e)) ==>
                e.textContent == AnnotateText(old(e.textContent), rates.rates).text
    ensures container != null ==>
              forall e :: e in PassWrites(container) && old(allocated(e)) ==>
                AnnotateText(e.textContent, rates.rates).text == e.textContent
  {
    if container == null {
      return;
    }
    ExtractPaid(container, rates);
    var members := Uniform(Membership, QuerySelectorAll(container, Tag("yt-live-chat-membership-item-renderer")));
    MembershipWritesNothing(QuerySelectorAll(container, Tag("yt-live-chat-membership-item-renderer")));
    ExtractEach(members, rates);
  }

  /** `processDialogSuperChats(dialog)`: the paid messages, then the stickers, below the dialog. */
  method ProcessDialogSuperChats(dialog: Node, rates: RateCache)
    modifies PassWrites(dialog)
    ensures forall e :: e in PassWrites(dialog) && old(allocated(e)) ==>
              e.textContent == AnnotateText(old(e.textContent), rates.rates).text
    ensures forall e :: e in PassWrites(dialog) && old(allocated(e)) ==>
              AnnotateText(e.textContent, rates.rates).text == e.textContent
  {
    ExtractPaid(dialog, rates);
  }
}
