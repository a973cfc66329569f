/** The Rhino gateway's locked sections: one execution, the scene index and the scene cache. */
module Gateway {
  import opened Wrappers
  import opened Values
  import opened Operations
  import opened Mapping
  import opened Host
  import opened Script
  import opened Plugin
  import opened Receipts
  import opened ReceiptTruth
  import opened ReceiptStatus
  import opened Agreement
  import Pagination

  type Order = Document -> seq<string>

  /** The server lists every object exactly once, in an order of its own. */
  ghost predicate ValidOrder(order: Order) {
    forall doc :: (forall id :: id in order(doc) <==> id in doc.objects)
                  && (forall i, j :: 0 <= i < j < |order(doc)| ==> order(doc)[i] != order(doc)[j])
  }

  /** The finalised scene of the listed objects. */
  function SceneOfIds(hash: Hash, doc: Document, ids: seq<string>): Scene {
    map id | id in ids && id in doc.objects :: hash(id, doc.objects[id])
  }

  // ---------------------------------------------------------------- an answered create under a page cap

  /** What a fully answered lone create leaves behind. */
  lemma LoneCreateRuns(k: Kernel, commands: seq<Command>, doc: Document, fates: nat -> Fate)
    requires ValidKernel(k) && ValidDocument(k, doc) && LoneCreate(commands)
    requires SendAll(k, commands, Begin(doc), fates, 0).how == Finished
    ensures var ending, id := SendAll(k, commands, Begin(doc), fates, 0), k.supply(doc.next);
            && ending.s.doc.objects.Keys == doc.objects.Keys + {id} && id !in doc.objects
            && (forall other :: other in doc.objects ==> ending.s.doc.objects[other] == doc.objects[other])
            && ending.s.aliases == map[commands[0].bind.value := [id]]
            && |ending.s.sent| == 1 && ending.s.sent[0].name == commands[0].name
  {
    hide ResolveParams, SendAll, ShapeNamed, ShapeName, Primitive, Translated;
    FinishedIsRun(k, commands, Begin(doc), fates, 0);
    assert commands[0..] == commands;
    var c := commands[0];
    assert commands == [c];
    assert Run(k, commands[1..], RunCommand(k, Begin(doc), c).value) == RunCommand(k, Begin(doc), c);
    var params := ResolveParams(c.params, map[]).value;
    CreateAddsOne(k, doc, c.name, params, c.field.value);
    SupplyNotEmpty(k, doc.next);
    SingleText(k.supply(doc.next));
    assert [] + [k.supply(doc.next)] == [k.supply(doc.next)];
  }

  /** An answered lone create ends `completed` exactly when the after-read can reach the new object, which a server
      that appends it to its listing shows only within the page cap. */
  lemma LoneCreateUnderCap(k: Kernel, hash: Hash, order: Order, cap: nat, commands: seq<Command>, doc: Document, fates: nat -> Fate)
    requires ValidKernel(k) && ValidDocument(k, doc) && LoneCreate(commands) && ValidOrder(order) && cap >= 1
    requires SendAll(k, commands, Begin(doc), fates, 0).how == Finished
    requires order(SendAll(k, commands, Begin(doc), fates, 0).s.doc) == order(doc) + [k.supply(doc.next)]
    ensures var ending := SendAll(k, commands, Begin(doc), fates, 0);
            var before := SceneOfIds(hash, doc, Pagination.Unlocked(order(doc), cap));
            var after := SceneOfIds(hash, ending.s.doc, Pagination.Unlocked(order(ending.s.doc), cap));
            ReceiptOf(commands, ending, before, after).status
            == if cap >= Pagination.UNLOCKED_LIMIT || |order(doc)| < cap then Completed else Unknown
  {
    hide SendAll, ResolveParams, ValidKernel, ValidDocument, SceneOfIds, Pagination.Unlocked, AllIds;
    LoneCreateRuns(k, commands, doc, fates);
    var ending, id := SendAll(k, commands, Begin(doc), fates, 0), k.supply(doc.next);
    OneAliasIds(commands[0].bind.value, id);
    assert SentIds(ending.s.sent, EDITS) == {} && SentIds(ending.s.sent, {DeleteObject}) == {};
    assert SomeBind(commands);
    assert id !in order(doc) by { assert id in order(doc) <==> id in doc.objects; }
    LastIsRead(hash, ending.s.doc, order(doc), id, cap);
  }

  /** Of a listing that ends with a new object, an unlocked read shows that object only within the page cap. */
  lemma LastIsRead(hash: Hash, doc: Document, older: seq<string>, id: string, cap: nat)
    requires id in doc.objects && id !in older
    ensures id in SceneOfIds(hash, doc, Pagination.Unlocked(older + [id], cap)) <==> cap >= Pagination.UNLOCKED_LIMIT || |older| < cap
  {
    var listing := older + [id];
    assert listing[|older|] == id;
  }

  /** A read that reaches the end of the listing shows the whole document. */
  lemma FullRead(hash: Hash, order: Order, cap: nat, doc: Document)
    requires ValidOrder(order) && (cap >= Pagination.UNLOCKED_LIMIT || |order(doc)| <= cap)
    ensures SceneOfIds(hash, doc, Pagination.Unlocked(order(doc), cap)) == SceneOf(hash, doc)
  {
    Pagination.UnlockedComplete(order(doc), cap);
    assert forall id :: id in order(doc) <==> id in doc.objects;
  }

  /** Between two full reads the receipt accounts for the batch. */
  lemma FullReadsAccount(k: Kernel, hash: Hash, order: Order, cap: nat, commands: seq<Command>, doc: Document, fates: nat -> Fate)
    requires ValidKernel(k) && ValidDocument(k, doc) && Injective(hash) && ValidOrder(order)
    requires cap >= Pagination.UNLOCKED_LIMIT || |order(doc)| <= cap
    requires var after := SendAll(k, commands, Begin(doc), fates, 0).s.doc; cap >= Pagination.UNLOCKED_LIMIT || |order(after)| <= cap
    ensures var ending := SendAll(k, commands, Begin(doc), fates, 0);
            AccountsForAll(k, commands, doc, fates, ending.s.doc,
                           ReceiptOf(commands, ending, SceneOfIds(hash, doc, Pagination.Unlocked(order(doc), cap)),
                                     SceneOfIds(hash, ending.s.doc, Pagination.Unlocked(order(ending.s.doc), cap))))
  {
    hide SendAll, ReceiptOf, ValidKernel, ValidDocument, Injective, ValidOrder, SceneOf, SceneOfIds, Accounts, StopsAfter;
    FullRead(hash, order, cap, doc);
    FullRead(hash, order, cap, SendAll(k, commands, Begin(doc), fates, 0).s.doc);
    var at := StatusMeans(k, hash, commands, doc, fates);
  }

  /** The plugin process: the open document and how it lists objects. */
  class PluginHost {
    var doc: Document
    const kernel: Kernel
    const order: Order
    const cap: nat
    const reportsTotal: bool

    constructor (doc: Document, kernel: Kernel, order: Order, cap: nat, reportsTotal: bool)
      ensures this.doc == doc && this.kernel == kernel && this.order == order && this.cap == cap && this.reportsTotal == reportsTotal
    {
      this.doc, this.kernel, this.order, this.cap, this.reportsTotal := doc, kernel, order, cap, reportsTotal;
    }

    /** Receive one write. The document changes unless the command never arrived or was refused. */
    method Receive(s: RunState, c: Command, fate: Fate) returns (r: StepResult)
      requires s.doc == doc
      modifies this`doc
      ensures r == SendOne(kernel, s, c, fate) && doc == r.s.doc
    {
      r := SendOne(kernel, s, c, fate);
      doc := r.s.doc;
    }
  }

  datatype Outcome = Raised | Incompatible | Stale | Done(receipt: Receipt)

  /** What the transport does to the calls of one execution. */
  datatype Conditions = Conditions(capabilities: bool, compatible: bool, beforeRead: bool, fates: nat -> Fate, afterRead: bool)

  datatype IndexReply = IndexReply(scene: Scene, truncated: bool, hit: bool)

  class RhinoMCPGateway {
    const plugin: PluginHost
    const hash: Hash
    const revision: Scene -> string
    var cache: Option<IndexReply>
    var capacity: nat

    constructor (plugin: PluginHost, hash: Hash, revision: Scene -> string)
      ensures this.plugin == plugin && this.hash == hash && this.revision == revision && cache == None && capacity == 0
      ensures Coherent() && IsPrefix()
    {
      this.plugin, this.hash, this.revision := plugin, hash, revision;
      cache, capacity := None, 0;
    }

    ghost function Listing(): seq<string>
      reads plugin
    {
      plugin.order(plugin.doc)
    }

    /** The scene of the first `n` listed objects. */
    ghost function FirstObjects(n: nat): Scene
      reads plugin
      requires n <= |Listing()|
    {
      SceneOfIds(hash, plugin.doc, Listing()[..n])
    }

    /** What an unlocked read of the current document returns. */
    ghost function ReadScene(): Scene
      reads plugin
    {
      SceneOfIds(hash, plugin.doc, Pagination.Unlocked(Listing(), plugin.cap))
    }

    /** The cache holds a prefix of the current document at least as long as its capacity promises. */
    ghost predicate Coherent()
      reads this, plugin
    {
      cache.Some? ==> exists n :: Pagination.Min(|Listing()|, capacity) <= n <= |Listing()| && cache.value.scene == FirstObjects(n)
    }

    /** The cache holds a prefix of the current document, perhaps a shorter one than its capacity promises. */
    ghost predicate IsPrefix()
      reads this, plugin
    {
      cache.Some? ==> exists n :: 0 <= n <= |Listing()| && cache.value.scene == FirstObjects(n)
    }

    /** Each page is as long as asked for, or the reported total makes short pages harmless, or one page is enough. */
    ghost predicate PagesReachEnd(pageSize: nat, maxObjects: nat)
      reads plugin
    {
      plugin.reportsTotal || plugin.cap >= Pagination.Min(pageSize, maxObjects) || |Listing()| <= plugin.cap
    }

    /** An unlocked read of the current document reaches the end of the listing. */
    ghost predicate ReadsAll()
      reads plugin
    {
      plugin.cap >= Pagination.UNLOCKED_LIMIT || |Listing()| <= plugin.cap
    }

    /** Different prefixes of the listing are different scenes. */
    lemma PrefixesDiffer(m: nat, n: nat)
      requires ValidOrder(plugin.order) && m < n <= |Listing()|
      ensures FirstObjects(m) != FirstObjects(n)
    {
      var id := Listing()[m];
      assert Listing()[..n][m] == id;
      assert id in FirstObjects(n) && id !in FirstObjects(m);
    }

    /** The loop over the commands: each is resolved and sent until one does not go through. */
    method SendCommands(commands: seq<Command>, fates: nat -> Fate) returns (ending: Ending)
      modifies plugin`doc
      ensures ending == SendAll(plugin.kernel, commands, Begin(old(plugin.doc)), fates, 0) && plugin.doc == ending.s.doc
    {
      hide SendOne;
      var s, how, i := Begin(plugin.doc), Finished, 0;
      while i < |commands|
        invariant 0 <= i <= |commands| && s.doc == plugin.doc && how == Finished
        invariant SendAll(plugin.kernel, commands, s, fates, i) == SendAll(plugin.kernel, commands, Begin(old(plugin.doc)), fates, 0)
      {
        var r := plugin.Receive(s, commands[i], fates(i));
        s := r.s;
        if r.Stop? {
          how := r.how;
          break;
        }
        i := i + 1;
      }
      ending := Ending(s, how, i);
    }

    /** The section of one execution that holds the lock. Whatever the cache held before, it is coherent afterwards. */
    method ExecuteLocked(commands: seq<Command>, expected: Option<string>, c: Conditions) returns (outcome: Outcome)
      requires plugin.cap >= 1
      modifies this`cache, this`capacity, plugin`doc
      ensures Coherent() && IsPrefix()
      ensures var ending := SendAll(plugin.kernel, commands, Begin(old(plugin.doc)), c.fates, 0);
              var before := old(ReadScene());
              if !c.capabilities || !c.compatible || !c.beforeRead || (expected.Some? && expected.value != revision(before)) then
                && plugin.doc == old(plugin.doc) && cache == None
                && outcome == (if !c.capabilities || (c.compatible && !c.beforeRead) then Raised
                               else if !c.compatible then Incompatible else Stale)
              else
                && plugin.doc == ending.s.doc
                && (if c.afterRead then outcome == Done(ReceiptOf(commands, ending, before, ReadScene()))
                                        && cache.Some? && cache.value.scene == ReadScene()
                    else outcome == Raised && cache == None)
      ensures ValidKernel(plugin.kernel) && old(ValidDocument(plugin.kernel, plugin.doc)) && Injective(hash) && ValidOrder(plugin.order)
              && outcome.Done? && old(ReadsAll()) && ReadsAll() ==>
                AccountsForAll(plugin.kernel, commands, old(plugin.doc), c.fates, plugin.doc, outcome.receipt)
    {
      hide SendAll, ReceiptOf, ValidKernel, ValidDocument, Injective, ValidOrder, AccountsForAll, SceneOfIds;
      cache, capacity := None, 0;
      if !c.capabilities { return Raised; }
      if !c.compatible { return Incompatible; }
      if !c.beforeRead { return Raised; }
      var read := Pagination.ReadUnlocked(plugin.order(plugin.doc), plugin.cap, plugin.reportsTotal);
      var before := SceneOfIds(hash, plugin.doc, read);
      if expected.Some? && expected.value != revision(before) { return Stale; }
      var ending := SendCommands(commands, c.fates);
      if !c.afterRead { return Raised; }
      read := Pagination.ReadUnlocked(plugin.order(plugin.doc), plugin.cap, plugin.reportsTotal);
      var after := SceneOfIds(hash, plugin.doc, read);
      outcome := Done(ReceiptOf(commands, ending, before, after));
      if ValidKernel(plugin.kernel) && ValidDocument(plugin.kernel, old(plugin.doc)) && Injective(hash) && ValidOrder(plugin.order)
         && old(ReadsAll()) && ReadsAll() {
        FullReadsAccount(plugin.kernel, hash, plugin.order, plugin.cap, commands, old(plugin.doc), c.fates);
      }
      cache, capacity := Some(IndexReply(after, false, false)), |read|;
      assert Listing()[..|read|] == read;
      assert cache.value.scene == FirstObjects(|read|);
    }

    /** The bounded scene index. `young` says whether the cached scene is within its age limit. A reply shows a prefix of the
        document, and from a coherent cache one that is long enough. */
    method SceneIndex(pageSize: nat, maxObjects: nat, young: bool, readable: bool) returns (reply: Option<IndexReply>)
      requires IsPrefix() && ValidOrder(plugin.order) && plugin.cap >= 1 && 1 <= pageSize <= 2000 && maxObjects >= 1
      modifies this`cache, this`capacity
      ensures IsPrefix()
      ensures reply.None? || reply.value.hit ==> cache == old(cache) && capacity == old(capacity)
      ensures reply.Some? && reply.value.hit <==> old(cache).Some? && old(capacity) >= maxObjects && young
      ensures reply.Some? && reply.value.hit ==>
                && reply.value == cache.value.(hit := true)
                && (exists n :: 0 <= n <= |Listing()| && reply.value.scene == FirstObjects(n))
                && (old(Coherent()) ==>
                      exists n :: Pagination.Min(|Listing()|, maxObjects) <= n <= |Listing()| && reply.value.scene == FirstObjects(n))
      ensures reply.Some? && !reply.value.hit ==> cache == reply && capacity == maxObjects
      ensures reply.Some? && !reply.value.hit ==> (Coherent() <==> PagesReachEnd(pageSize, maxObjects))
      ensures reply.Some? && !reply.value.hit ==>
                reply.value.scene == FirstObjects(if PagesReachEnd(pageSize, maxObjects) then Pagination.Min(|Listing()|, maxObjects) else plugin.cap)
      ensures reply.Some? && !reply.value.hit && plugin.reportsTotal ==> (reply.value.truncated <==> |Listing()| > maxObjects)
      ensures reply.None? ==> !readable
    {
      if cache.Some? && capacity >= maxObjects && young {
        return Some(cache.value.(hit := true));
      }
      if !readable { return None; }
      var objects, truncated := Pagination.ReadIndex(plugin.order(plugin.doc), plugin.cap, plugin.reportsTotal, pageSize, maxObjects);
      reply := Some(IndexReply(SceneOfIds(hash, plugin.doc, objects), truncated, false));
      cache, capacity := reply, maxObjects;
      assert Listing()[..|objects|] == objects;
      assert reply.value.scene == FirstObjects(|objects|);
      if !PagesReachEnd(pageSize, maxObjects) {
        assert objects == Pagination.FirstOf(Listing(), plugin.cap);
        forall n | Pagination.Min(|Listing()|, capacity) <= n <= |Listing()| ensures reply.value.scene != FirstObjects(n) {
          PrefixesDiffer(|objects|, n);
        }
      }
    }
  }
}
