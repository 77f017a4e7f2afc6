/** The buffer hash, its counter and the status cell: internal/redis/backend.go. */
module RedisBackend {
  import opened Prelude
  import opened Messages

  const BUFFER_KEY_PREFIX := "PUBLISH_ENGINE::BUFFER::"
  const EVENT_STATUS_PREFIX := "EVENT::STATUS::"

  const COUNT_FIELD := "__processed_count__"
  const META_FIELD := "__meta__"

  const PROCESSING := "PROCESSING_EVENT_IN_PUBLISHER_CONTROLLER"
  const BUFFERED := "BUFFERED_EVENT_IN_GO_DISPATCHER_TO_REDIS"

  function BufferKey(rk: string): string { BUFFER_KEY_PREFIX + rk }

  function StatusKey(rk: string): string { EVENT_STATUS_PREFIX + rk }

  /**
   * The Redis keys of different routing keys, and of the two kinds, never
   * collide. This is why `Store` can be indexed by routing key.
   */
  lemma KeysNeverCollide(a: string, b: string)
    ensures BufferKey(a) == BufferKey(b) ==> a == b
    ensures StatusKey(a) == StatusKey(b) ==> a == b
    ensures BufferKey(a) != StatusKey(b)
    ensures BufferKey(a) == "PUBLISH_ENGINE::BUFFER::" + a && StatusKey(a) == "EVENT::STATUS::" + a
  {
    assert a == BufferKey(a)[|BUFFER_KEY_PREFIX|..] && b == BufferKey(b)[|BUFFER_KEY_PREFIX|..];
    assert a == StatusKey(a)[|EVENT_STATUS_PREFIX|..] && b == StatusKey(b)[|EVENT_STATUS_PREFIX|..];
    assert BufferKey(a)[0] == 'P' && StatusKey(b)[0] == 'E';
  }

  /** The `__meta__` text as the completion check reads it: a JSON object without `total_messages` has total 0. */
  datatype Meta = Unreadable | Total(messages: int)

  /** The value of one hash field: a number, the JSON of a widget message, or the publisher's `__meta__`. */
  datatype Cell = Number(n: int) | Payload(message: Outgoing) | MetaText(meta: Meta)

  type Hash = map<string, Cell>

  /** The backend Redis: one buffer hash and one status string per routing key. */
  datatype Store = Store(buffers: map<string, Hash>, status: map<string, string>)

  const EMPTY_STORE := Store(map[], map[])

  function HashOf(store: Store, rk: string): Hash {
    if rk in store.buffers then store.buffers[rk] else map[]
  }

  // The Redis commands, each one atomic.

  function HSet(store: Store, rk: string, field: string, cell: Cell): Store {
    store.(buffers := store.buffers[rk := HashOf(store, rk)[field := cell]])
  }

  /** HINCRBY fails on a field that does not hold an integer. */
  predicate CanIncrement(store: Store, rk: string) {
    COUNT_FIELD in HashOf(store, rk) ==> HashOf(store, rk)[COUNT_FIELD].Number?
  }

  /** What the counter field holds; a missing field counts as 0. */
  function Counter(store: Store, rk: string): int {
    if COUNT_FIELD in HashOf(store, rk) && HashOf(store, rk)[COUNT_FIELD].Number?
    then HashOf(store, rk)[COUNT_FIELD].n else 0
  }

  function HIncr(store: Store, rk: string): Store
    requires CanIncrement(store, rk)
  {
    HSet(store, rk, COUNT_FIELD, Number(Counter(store, rk) + 1))
  }

  /** HGET `__meta__` followed by the decoding of its JSON. A number is not an object; a message has no total. */
  function ReadMeta(store: Store, rk: string): Option<Meta> {
    if META_FIELD !in HashOf(store, rk) then None
    else match HashOf(store, rk)[META_FIELD]
      case MetaText(meta) => Some(meta)
      case Number(_) => Some(Unreadable)
      case Payload(_) => Some(Total(0))
  }

  function SetStatus(store: Store, rk: string, status: string): Store {
    store.(status := store.status[rk := status])
  }

  function DropBuffer(store: Store, rk: string): Store {
    store.(buffers := store.buffers - {rk})
  }

  function DropStatus(store: Store, rk: string): Store {
    store.(status := store.status - {rk})
  }

  /** The field a widget message is stored under. */
  function FieldOf(message: Outgoing): string {
    if message.eventName == "" then "payload" else message.eventName
  }

  /** The total against which a draw of `n` completes the event, if it does. */
  function Completes(meta: Option<Meta>, n: int): Option<int> {
    match meta
    case Some(Total(total)) => if n >= total then Some(total) else None
    case _ => None
  }

  /** The two statuses, and that they cannot be mistaken for each other. */
  lemma StatusTexts()
    ensures PROCESSING == "PROCESSING_EVENT_IN_PUBLISHER_CONTROLLER"
    ensures BUFFERED == "BUFFERED_EVENT_IN_GO_DISPATCHER_TO_REDIS"
    ensures PROCESSING != BUFFERED
  {
    assert PROCESSING[0] == 'P' && BUFFERED[0] == 'B';
  }

  // ---- The client, one call at a time ----

  /** The completion check when no other client comes between its three commands. */
  function CheckAlone(store: Store, rk: string, incr: Reply, look: Reply, set_: Reply): Store {
    if !incr.Applied() || !CanIncrement(store, rk) then store
    else
      var n := Counter(store, rk) + 1;
      var counted := HIncr(store, rk);
      if incr.Ok? && look.Ok? && Completes(ReadMeta(counted, rk), n).Some? && set_.Applied()
      then SetStatus(counted, rk, BUFFERED) else counted
  }

  /** One more increment reaches the total. */
  predicate BufferedNow(store: Store, rk: string) {
    Completes(ReadMeta(store, rk), Counter(store, rk) + 1).Some?
  }

  /**
   * Undisturbed, the check adds one to the counter, sets BUFFERED exactly when
   * the total that was there before is reached, and touches nothing else.
   */
  lemma CheckAloneFacts(store: Store, rk: string, incr: Reply, look: Reply, set_: Reply)
    requires CanIncrement(store, rk)
    ensures var store' := CheckAlone(store, rk, incr, look, set_);
      && Counter(store', rk) == Counter(store, rk) + (if incr.Applied() then 1 else 0)
      && (forall k, f :: (k != rk || f != COUNT_FIELD) && f in HashOf(store, k) ==>
            f in HashOf(store', k) && HashOf(store', k)[f] == HashOf(store, k)[f])
      && (forall k, f :: f in HashOf(store', k) ==> f in HashOf(store, k) || (k == rk && f == COUNT_FIELD))
      && store'.status ==
           (if incr.Ok? && look.Ok? && set_.Applied() && BufferedNow(store, rk)
            then store.status[rk := BUFFERED] else store.status)
  {
    assert |COUNT_FIELD| != |META_FIELD|;
    hide COUNT_FIELD, META_FIELD;
  }

  class BackendRedis {
    var buffers: map<string, Hash>
    var status: map<string, string>

    function AsStore(): Store
      reads this
    {
      Store(buffers, status)
    }

    constructor ()
      ensures AsStore() == EMPTY_STORE
    {
      buffers, status := map[], map[];
    }

    function Fields(rk: string): Hash
      reads this
    {
      if rk in buffers then buffers[rk] else map[]
    }

    /** The total that `__meta__` gives: a message stored there has none, which reads as 0. */
    function TotalOf(rk: string): Option<int>
      reads this
    {
      if "__meta__" !in Fields(rk) then None
      else match Fields(rk)["__meta__"]
        case MetaText(Total(messages)) => Some(messages)
        case Payload(_) => Some(0)
        case _ => None
    }

    /** What the count becomes by one more marker, if the field holds a count or nothing. */
    function NextCount(rk: string): Option<int>
      reads this
    {
      if "__processed_count__" !in Fields(rk) then Some(1)
      else match Fields(rk)["__processed_count__"]
        case Number(n) => Some(n + 1)
        case _ => None
    }

    /** Writes one field of the buffer hash and keeps every other field and key. */
    method StoreDataInRedis(rk: string, message: Outgoing, reply: Reply) returns (ok: bool)
      modifies this`buffers
      ensures ok == reply.Ok?
      ensures AsStore() ==
        if reply.Applied() then HSet(old(AsStore()), rk, FieldOf(message), Payload(message)) else old(AsStore())
      ensures status == old(status)
      ensures var field := if message.eventName == "" then "payload" else message.eventName;
        buffers == if reply.Applied() then old(buffers)[rk := old(Fields(rk))[field := Payload(message)]]
                   else old(buffers)
    {
      var field := message.eventName;
      if field == "" {
        field := "payload";
      }
      if reply.Applied() {
        buffers := buffers[rk := Fields(rk)[field := Payload(message)]];
      }
      return reply.Ok?;
    }

    /**
     * HINCRBY, HGET and SET in this order; an error of one ends the call. The count
     * goes up by one, and the status says that the event is buffered if and only if
     * the new count reaches the total.
     */
    method IncrementAndCheckCompletion(rk: string, incr: Reply, look: Reply, set_: Reply) returns (ok: bool)
      modifies this
      ensures AsStore() == CheckAlone(old(AsStore()), rk, incr, look, set_)
      ensures ok <==>
        incr.Ok? && look.Ok? && CanIncrement(old(AsStore()), rk) && (BufferedNow(old(AsStore()), rk) ==> set_.Ok?)
      ensures var n := old(NextCount(rk));
        buffers == if incr.Applied() && n.Some?
                   then old(buffers)[rk := old(Fields(rk))["__processed_count__" := Number(n.value)]] else old(buffers)
      ensures var n, total := old(NextCount(rk)), old(TotalOf(rk));
        status == if incr.Ok? && look.Ok? && set_.Applied() && n.Some? && total.Some? && n.value >= total.value
                  then old(status)[rk := "BUFFERED_EVENT_IN_GO_DISPATCHER_TO_REDIS"] else old(status)
    {
      assert |COUNT_FIELD| != |META_FIELD|;
      var hash := Fields(rk);
      if !incr.Applied() || (COUNT_FIELD in hash && !hash[COUNT_FIELD].Number?) {
        return false;
      }
      var n := (if COUNT_FIELD in hash then hash[COUNT_FIELD].n else 0) + 1;
      buffers := buffers[rk := hash[COUNT_FIELD := Number(n)]];
      if !incr.Ok? || !look.Ok? {
        return false;
      }
      hash := Fields(rk);
      if META_FIELD !in hash {
        return true;
      }
      var total;
      match hash[META_FIELD] {
        case MetaText(Total(messages)) => total := messages;
        case Payload(_) => total := 0;
        case _ => return true;
      }
      if n >= total {
        if set_.Applied() {
          status := status[rk := BUFFERED];
        }
        return set_.Ok?;
      }
      return true;
    }

    method UpdateEventStatus(rk: string, value: string, reply: Reply) returns (ok: bool)
      modifies this`status
      ensures ok == reply.Ok?
      ensures AsStore() == if reply.Applied() then SetStatus(old(AsStore()), rk, value) else old(AsStore())
      ensures buffers == old(buffers) && status == if reply.Applied() then old(status)[rk := value] else old(status)
    {
      if reply.Applied() {
        status := status[rk := value];
      }
      return reply.Ok?;
    }
  }
}
