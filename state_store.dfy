/**
  The state store: one map from channel key to the latest raw text received on
  that channel. The message handler files each inbound message under its channel
  key, overwriting whatever was there; nothing is validated, nothing is ever
  deleted, and no history is kept.
 */
module StateStore {
  import opened JsString
  import opened Topics

  type Store = map<string, string>

  /** The store after the message handler has filed `msg`. */
  function Ingested(m: Store, msg: Message): (r: Store)
    ensures r.Keys == m.Keys + {ChannelKey(msg.topic)}
    ensures r[ChannelKey(msg.topic)] == msg.payload
    ensures forall k :: k in m && k != ChannelKey(msg.topic) ==> r[k] == m[k]
  {
    m[ChannelKey(msg.topic) := msg.payload]
  }

  /** The store after the handler has filed `msgs`, in the order they were delivered. */
  function Replay(m: Store, msgs: seq<Message>): Store
  {
    if msgs == [] then m else Ingested(Replay(m, msgs[..|msgs| - 1]), msgs[|msgs| - 1])
  }

  /** A message delivered twice leaves the store as delivering it once does. */
  lemma IngestDuplicate(m: Store, msg: Message)
    ensures Ingested(Ingested(m, msg), msg) == Ingested(m, msg)
  {
  }

  /** Of two writes to the same channel, only the later survives. */
  lemma IngestOverwrites(m: Store, first: Message, second: Message)
    requires ChannelKey(first.topic) == ChannelKey(second.topic)
    ensures Ingested(Ingested(m, first), second) == Ingested(m, second)
  {
  }

  /** Writes to different channels do not interfere, whatever order they arrive in. */
  lemma IngestCommutes(m: Store, a: Message, b: Message)
    requires ChannelKey(a.topic) != ChannelKey(b.topic)
    ensures Ingested(Ingested(m, a), b) == Ingested(Ingested(m, b), a)
  {
  }

  /**
    Last write wins over a whole delivery history: the value stored for a
    channel is the payload of the last message delivered on it.
   */
  lemma {:induction false} ReplayLastWriteWins(m: Store, msgs: seq<Message>, j: int)
    requires 0 <= j < |msgs|
    requires forall i :: j < i < |msgs| ==> ChannelKey(msgs[i].topic) != ChannelKey(msgs[j].topic)
    ensures Lookup(Replay(m, msgs), ChannelKey(msgs[j].topic)) == Some(msgs[j].payload)
  {
    var prefix := msgs[..|msgs| - 1];
    if j < |msgs| - 1 {
      assert prefix[j] == msgs[j];
      forall i | j < i < |prefix|
        ensures ChannelKey(prefix[i].topic) != ChannelKey(prefix[j].topic)
      {
        assert prefix[i] == msgs[i];
      }
      ReplayLastWriteWins(m, prefix, j);
    }
  }

  /** A channel that no delivered message names keeps its earlier value, or stays absent. */
  lemma {:induction false} ReplayUntouched(m: Store, msgs: seq<Message>, k: string)
    requires forall i :: 0 <= i < |msgs| ==> ChannelKey(msgs[i].topic) != k
    ensures Lookup(Replay(m, msgs), k) == Lookup(m, k)
  {
    if msgs != [] {
      var prefix := msgs[..|msgs| - 1];
      forall i | 0 <= i < |prefix| ensures ChannelKey(prefix[i].topic) != k {
        assert prefix[i] == msgs[i];
      }
      ReplayUntouched(m, prefix, k);
    }
  }

  /** Entries are never deleted, and the only keys a replay adds are those of the messages it files. */
  lemma {:induction false} ReplayKeys(m: Store, msgs: seq<Message>)
    ensures m.Keys <= Replay(m, msgs).Keys
    ensures forall k :: k in Replay(m, msgs) ==>
      k in m || exists i :: 0 <= i < |msgs| && ChannelKey(msgs[i].topic) == k
  {
    if msgs != [] {
      var prefix := msgs[..|msgs| - 1];
      ReplayKeys(m, prefix);
      forall k | k in Replay(m, msgs) && k !in m
        ensures exists i :: 0 <= i < |msgs| && ChannelKey(msgs[i].topic) == k
      {
        if k != ChannelKey(msgs[|msgs| - 1].topic) {
          var i :| 0 <= i < |prefix| && ChannelKey(prefix[i].topic) == k;
          assert msgs[i] == prefix[i];
        }
      }
    }
  }

  /** A duplicate delivery at the end of a history changes nothing. */
  lemma ReplayDuplicate(m: Store, msgs: seq<Message>, msg: Message)
    ensures Replay(m, msgs + [msg, msg]) == Replay(m, msgs + [msg])
  {
    assert (msgs + [msg, msg])[..|msgs| + 1] == msgs + [msg];
    assert (msgs + [msg])[..|msgs|] == msgs;
    IngestDuplicate(Replay(m, msgs), msg);
  }
}
