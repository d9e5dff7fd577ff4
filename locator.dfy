/**
 * `observeSuperChats` and the state around it: the enabled flag, the toggle message and
 * the stored flag that set it, and what the function leaves registered with the browser
 * (a retry timer, a `load` listener on the chat frame, or the mutation observers).
 */
module Locator {
  import opened Wrappers
  import opened Text
  import opened ExchangeRate
  import opened Dom
  import opened Annotation
  import opened Dispatch

  /** The delay, in milliseconds, of the retry while the conversion is switched off. */
  const DisabledRetry: nat := 1000
  /** The delay, in milliseconds, of the retry while part of the chat is not found. */
  const MissingRetry: nat := 5000

  /** What one run of `observeSuperChats` decides to do. */
  datatype Decision =
    | RetryAfter(ms: nat)                 // schedule `observeSuperChats` again after `ms`
    | WaitForLoad(frame: Node)            // run it again on the frame's `load` event
    | Attach(doc: Node, items: Node)      // observe `items` and the dialogs of `doc`

  /** `document.querySelector('iframe#chatframe')`. */
  function ChatFrame(document: Node): Node? {
    QuerySelector(document, TagAndId("iframe", "chatframe"))
  }

  /**
   * The `#items` list of the chat document: `yt-live-chat-app`, then
   * `yt-live-chat-item-list-renderer`, then `#items`; `null` when a step is missing.
   */
  function ItemsOf(doc: Node): Node? {
    var app := QuerySelector(doc, Tag("yt-live-chat-app"));
    if app == null then null
    else
      var list := QuerySelector(app, Tag("yt-live-chat-item-list-renderer"));
      if list == null then null else QuerySelector(list, Id("items"))
  }

  /** The decision chain of `observeSuperChats`, checked in the order the code checks it. */
  function Locate(enabled: bool, document: Node): Decision {
    if !enabled then RetryAfter(DisabledRetry)
    else
      var frame := ChatFrame(document);
      if frame == null then RetryAfter(MissingRetry)
      else if frame.contentDocument == null then WaitForLoad(frame)
      else
        var items := ItemsOf(frame.contentDocument);
        if items == null then RetryAfter(MissingRetry) else Attach(frame.contentDocument, items)
  }

  /** Switched off, the function only schedules itself again after one second. */
  lemma LocateWhenDisabled(enabled: bool, document: Node)
    ensures Locate(enabled, document) == RetryAfter(DisabledRetry) <==> !enabled
  {
  }

  /** It waits for the frame's `load` event exactly when the frame is there but not loaded. */
  lemma LocateWaitsForLoad(enabled: bool, document: Node)
    ensures Locate(enabled, document).WaitForLoad? <==>
              enabled && ChatFrame(document) != null && ChatFrame(document).contentDocument == null
    ensures Locate(enabled, document).WaitForLoad? ==> Locate(enabled, document).frame == ChatFrame(document)
  {
  }

  /** It retries after five seconds exactly when the frame or a step below it is missing. */
  lemma LocateRetriesWhenMissing(enabled: bool, document: Node)
    ensures Locate(enabled, document) == RetryAfter(MissingRetry) <==>
              enabled &&
              (ChatFrame(document) == null ||
               (ChatFrame(document).contentDocument != null && ItemsOf(ChatFrame(document).contentDocument) == null))
  {
  }

  /** It attaches exactly when everything is found, to the loaded frame's document and its list. */
  lemma LocateAttaches(enabled: bool, document: Node)
    ensures var d := Locate(enabled, document);
            d.Attach? <==>
              enabled && ChatFrame(document) != null && ChatFrame(document).contentDocument != null &&
              ItemsOf(ChatFrame(document).contentDocument) != null
    ensures var d := Locate(enabled, document);
            d.Attach? ==> d.doc == ChatFrame(document).contentDocument && d.items == ItemsOf(d.doc)
  {
  }

  /** The only delays ever scheduled are one second and five seconds. */
  lemma LocateDelays(enabled: bool, document: Node)
    ensures var d := Locate(enabled, document);
            d.RetryAfter? ==> d.ms == DisabledRetry || d.ms == MissingRetry
  {
  }

  /** One `MutationObserver.observe` call: on which node, which callback, and whether it watches the subtree. */
  datatype Subscription = Subscription(target: Node, watcher: Watcher, subtree: bool)

  /** The content observers `watchDialogContent` attaches to a list of dialogs, in order. */
  function DialogWatches(dialogs: seq<Node>): seq<Subscription> {
    if dialogs == [] then [] else DialogWatches(dialogs[..|dialogs| - 1]) + [Subscription(dialogs[|dialogs| - 1], DialogContent, true)]
  }

  /** One content observer per dialog, on the whole subtree of that dialog, in list order. */
  lemma {:induction false} DialogWatchesEach(dialogs: seq<Node>)
    ensures var subs := DialogWatches(dialogs);
            |subs| == |dialogs| &&
            forall x :: 0 <= x < |dialogs| ==> subs[x] == Subscription(dialogs[x], DialogContent, true)
  {
    if dialogs != [] {
      DialogWatchesEach(dialogs[..|dialogs| - 1]);
    }
  }

  /** Every element the passes over a list of dialogs may write. */
  function DialogWrites(dialogs: seq<Node>): set<Node> {
    if dialogs == [] then {} else DialogWrites(dialogs[..|dialogs| - 1]) + PassWrites(dialogs[|dialogs| - 1])
  }

  /** The dialogs among a list of added nodes: the elements the dialog observer reacts to. */
  function DialogsAdded(nodes: seq<Node>): (dialogs: seq<Node>)
    ensures forall x :: 0 <= x < |dialogs| ==> Classify(DialogOpened, dialogs[x]) == Dialog && dialogs[x] in nodes
  {
    if nodes == [] then []
    else
      var rest := DialogsAdded(nodes[..|nodes| - 1]);
      var last := nodes[|nodes| - 1];
      assert forall x :: 0 <= x < |rest| ==> rest[x] in nodes by {
        forall x | 0 <= x < |rest| ensures rest[x] in nodes {
          assert rest[x] in nodes[..|nodes| - 1];
        }
      }
      if Classify(DialogOpened, last) == Dialog then rest + [last] else rest
  }

  /** The filter splits over concatenation, so the dialogs keep the order of the added nodes. */
  lemma {:induction false} DialogsAddedAppend(a: seq<Node>, b: seq<Node>)
    ensures DialogsAdded(a + b) == DialogsAdded(a) + DialogsAdded(b)
  {
    if b == [] {
      assert a + b == a;
    } else {
      var init := b[..|b| - 1];
      assert (a + b)[..|a + b| - 1] == a + init;
      DialogsAddedAppend(a, init);
    }
  }

  /** A single added node is kept exactly when the dialog observer's test accepts it. */
  lemma DialogsAddedSingle(node: Node)
    ensures DialogsAdded([node]) == if Classify(DialogOpened, node) == Dialog then [node] else []
  {
    assert [node][..0] == [];
  }

  /** No dialog is dropped: every added node the dialog observer's test accepts is kept. */
  lemma {:induction false} DialogsAddedComplete(nodes: seq<Node>)
    ensures forall x :: 0 <= x < |nodes| && Classify(DialogOpened, nodes[x]) == Dialog ==> nodes[x] in DialogsAdded(nodes)
  {
    if nodes != [] {
      var init := nodes[..|nodes| - 1];
      DialogsAddedComplete(init);
      forall x | 0 <= x < |init| && Classify(DialogOpened, nodes[x]) == Dialog
        ensures nodes[x] in DialogsAdded(nodes)
      {
        assert nodes[x] == init[x];
      }
    }
  }

  /** The dialogs added across a list of mutation records, record by record. */
  function DialogsOfRecords(records: seq<seq<Node>>): seq<Node> {
    if records == [] then [] else DialogsOfRecords(records[..|records| - 1]) + DialogsAdded(records[|records| - 1])
  }

  /** `iframeDoc.querySelectorAll('tp-yt-paper-dialog')`. */
  function ExistingDialogs(doc: Node): seq<Node> {
    QuerySelectorAll(doc, Tag("tp-yt-paper-dialog"))
  }

  /**
   * Every element `observeSuperChats` may write when it attaches: those below `#items`,
   * and, when the document has a body, those below the dialogs already open.
   */
  function AttachWrites(doc: Node, items: Node): set<Node> {
    PassWrites(items) + (if doc.body == null then {} else DialogWrites(ExistingDialogs(doc)))
  }

  /** Every element one run of `observeSuperChats` may write. */
  function ObserveWrites(enabled: bool, document: Node): set<Node> {
    match Locate(enabled, document)
    case Attach(doc, items) => AttachWrites(doc, items)
    case _ => {}
  }

  /**
   * The content script's state: the `conversionEnabled` flag, and what it has registered
   * with the browser — the delays of the retries it scheduled, the frames whose `load`
   * event it listens to (adding the same listener twice registers it once) and the
   * mutation observers it attached, in order.
   */
  class Controller {
    var enabled: bool
    var timers: seq<nat>
    var loadListeners: set<Node>
    var subscriptions: seq<Subscription>

    /** `let conversionEnabled = true`, before anything is registered. */
    constructor ()
      ensures enabled && timers == [] && loadListeners == {} && subscriptions == []
    {
      enabled := true;
      timers := [];
      loadListeners := {};
      subscriptions := [];
    }

    /** The `chrome.runtime.onMessage` listener: only a 'toggleConversion' request sets the flag. */
    method OnMessage(action: string, requested: bool)
      modifies this
      ensures enabled == if action == "toggleConversion" then requested else old(enabled)
      ensures timers == old(timers) && loadListeners == old(loadListeners) && subscriptions == old(subscriptions)
    {
      if action == "toggleConversion" {
        enabled := requested;
      }
    }

    /**
     * The callback of `chrome.storage.sync.get(['enabled'])`: the flag is on unless the
     * stored value is `false`; a missing value counts as on.
     */
    method OnStoredFlag(stored: Option<bool>)
      modifies this
      ensures enabled <==> stored != Some(false)
      ensures timers == old(timers) && loadListeners == old(loadListeners) && subscriptions == old(subscriptions)
    {
      enabled := stored != Some(false);
    }

    /** `processDialogSuperChats(dialog)`, then `watchDialogContent(dialog)`. */
    method WatchDialog(dialog: Node, rates: RateCache)
      modifies this, PassWrites(dialog)
      ensures subscriptions == old(subscriptions) + [Subscription(dialog, DialogContent, true)]
      ensures enabled == old(enabled) && timers == old(timers) && loadListeners == old(loadListeners)
      ensures forall e :: e in PassWrites(dialog) && old(allocated(e)) ==>
                e.textContent == AnnotateText(old(e.textContent), rates.rates).text
      ensures forall e :: e in PassWrites(dialog) && old(allocated(e)) ==>
                AnnotateText(e.textContent, rates.rates).text == e.textContent
    {
      ProcessDialogSuperChats(dialog, rates);
      subscriptions := subscriptions + [Subscription(dialog, DialogContent, true)];
    }

    /**
     * `processDialogSuperChats` then `watchDialogContent` on each dialog in turn, in list
     * order: the dialogs before the last one first, then the last one. Every element written
     * ends up annotated once, and one content observer per dialog is attached.
     */
    method WatchDialogs(dialogs: seq<Node>, rates: RateCache)
      modifies this, DialogWrites(dialogs)
      ensures subscriptions == old(subscriptions) + DialogWatches(dialogs)
      ensures enabled == old(enabled) && timers == old(timers) && loadListeners == old(loadListeners)
      ensures forall e :: e in DialogWrites(dialogs) && old(allocated(e)) ==>
                e.textContent == AnnotateText(old(e.textContent), rates.rates).text
      ensures forall e :: e in DialogWrites(dialogs) && old(allocated(e)) ==>
                AnnotateText(e.textContent, rates.rates).text == e.textContent
      decreases |dialogs|
    {
      if dialogs != [] {
        var last := |dialogs| - 1;
        WatchDialogs(dialogs[..last], rates);
        WatchDialog(dialogs[last], rates);
      }
    }

    /**
     * `observeDialogSuperChats(doc)`: observe the body for dialogs, then handle the dialogs
     * already open. Without a body, `observe` throws and nothing after it happens; `raised`
     * reports that.
     */
    method ObserveDialogs(doc: Node, rates: RateCache) returns (raised: bool)
      modifies this, if doc.body == null then {} else DialogWrites(ExistingDialogs(doc))
      ensures raised <==> doc.body == null
      ensures subscriptions == if doc.body == null then old(subscriptions)
                               else old(subscriptions) + [Subscription(doc.body, DialogOpened, true)] +
                                    DialogWatches(ExistingDialogs(doc))
      ensures enabled == old(enabled) && timers == old(timers) && loadListeners == old(loadListeners)
      ensures doc.body != null ==>
                forall e :: e in DialogWrites(ExistingDialogs(doc)) && old(allocated(e)) ==>
                  e.textContent == AnnotateText(old(e.textContent), rates.rates).text
      ensures doc.body != null ==>
                forall e :: e in DialogWrites(ExistingDialogs(doc)) && old(allocated(e)) ==>
                  AnnotateText(e.textContent, rates.rates).text == e.textContent
    {
      if doc.body == null {
        return true;
      }
      subscriptions := subscriptions + [Subscription(doc.body, DialogOpened, true)];
      WatchDialogs(ExistingDialogs(doc), rates);
      raised := false;
    }

    /**
     * The end of `observeSuperChats()` once everything is found: observe `#items`, handle the
     * messages already there, then `observeDialogSuperChats(doc)`. `raised` reports the throw
     * of a document without a body, after the first two steps took effect.
     */
    method AttachObservers(doc: Node, items: Node, rates: RateCache) returns (raised: bool)
      modifies this, AttachWrites(doc, items)
      ensures subscriptions ==
                if doc.body == null then old(subscriptions) + [Subscription(items, ItemList, false)]
                else old(subscriptions) + [Subscription(items, ItemList, false)] + [Subscription(doc.body, DialogOpened, true)] +
                     DialogWatches(ExistingDialogs(doc))
      ensures raised <==> doc.body == null
      ensures enabled == old(enabled) && timers == old(timers) && loadListeners == old(loadListeners)
      ensures forall e :: e in AttachWrites(doc, items) && old(allocated(e)) ==>
                e.textContent == AnnotateText(old(e.textContent), rates.rates).text
    {
      subscriptions := subscriptions + [Subscription(items, ItemList, false)];
      ProcessExistingSuperChats(items, rates);
      raised := ObserveDialogs(doc, rates);
    }

    /**
     * `observeSuperChats()`: carry out the decision. A retry adds a timer, a frame that is not
     * loaded gets the `load` listener, and on success the observers are attached and the
     * messages handled. Every element written ends up annotated once.
     */
    method ObserveSuperChats(document: Node, rates: RateCache) returns (raised: bool)
      modifies this, ObserveWrites(enabled, document)
      ensures var d := Locate(old(enabled), document);
              timers == if d.RetryAfter? then old(timers) + [d.ms] else old(timers)
      ensures var d := Locate(old(enabled), document);
              loadListeners == if d.WaitForLoad? then old(loadListeners) + {d.frame} else old(loadListeners)
      ensures var d := Locate(old(enabled), document);
              subscriptions ==
                if !d.Attach? then old(subscriptions)
                else if d.doc.body == null then old(subscriptions) + [Subscription(d.items, ItemList, false)]
                else old(subscriptions) + [Subscription(d.items, ItemList, false)] + [Subscription(d.doc.body, DialogOpened, true)] +
                     DialogWatches(ExistingDialogs(d.doc))
      ensures enabled == old(enabled)
      ensures var d := Locate(old(enabled), document);
              raised <==> d.Attach? && d.doc.body == null
      ensures forall e :: e in ObserveWrites(old(enabled), document) && old(allocated(e)) ==>
                e.textContent == AnnotateText(old(e.textContent), rates.rates).text
    {
      match Locate(enabled, document) {
        case RetryAfter(ms) =>
          timers := timers + [ms];
          raised := false;
        case WaitForLoad(frame) =>
          loadListeners := loadListeners + {frame};
          raised := false;
        case Attach(doc, items) =>
          raised := AttachObservers(doc, items, rates);
      }
    }

    /**
     * The callback of the dialog observer: for each added `TP-YT-PAPER-DIALOG` element, in
     * record order, the same handling as for a dialog already open.
     */
    method OnDialogMutations(records: seq<seq<Node>>, rates: RateCache)
      modifies this, DialogWrites(DialogsOfRecords(records))
      ensures subscriptions == old(subscriptions) + DialogWatches(DialogsOfRecords(records))
      ensures enabled == old(enabled) && timers == old(timers) && loadListeners == old(loadListeners)
      ensures forall e :: e in DialogWrites(DialogsOfRecords(records)) && old(allocated(e)) ==>
                e.textContent == AnnotateText(old(e.textContent), rates.rates).text
    {
      WatchDialogs(DialogsOfRecords(records), rates);
    }
  }
}
