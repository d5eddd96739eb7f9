/**
 * The front end's application state and its reducer
 * (front-end/src/context/AppContext.js): chat messages, flags, the audio
 * playback queue and the cache of decoded audio, each action returning a new
 * state built by spreading the old one.
 */
module AppContext {
  import opened Wrappers
  import opened Json

  /** A chat message: a plain object. */
  type Message = map<string, Value>

  datatype AppState = AppState(
    messages: seq<Message>,
    isProcessing: Value,
    error: Value,
    showChinese: bool,
    currentlyPlaying: Value,
    audioQueue: seq<Value>,
    audioData: map<string, Value>)

  /** `initialState` (AppContext.js:4-12). */
  const Initial := AppState([], JBool(false), JNull, false, JNull, [], map[])

  datatype Action =
    | AddMessage(message: Message)
    | UpdateMessage(id: Option<Value>, changes: map<string, Value>)
    | SetMessages(replacement: seq<Message>)
    | SetProcessing(flag: Value)
    | SetError(error: Value)
    | SetPlaying(playing: Value)
    | ToggleLanguage
    | ClearHistory
    | QueueAudio(item: Value)
    | DequeueAudio
    | StoreAudioData(key: string, audio: Value)
    | Unknown(kind: string)

  /** `msg.id`; None stands for `undefined`. */
  function IdOf(m: Message): Option<Value>
  {
    if "id" in m then Some(m["id"]) else None
  }

  /** `{ ...msg, ...data }`: the keys of `data` win. */
  function Merge(m: Message, data: map<string, Value>): (r: Message)
    ensures r.Keys == m.Keys + data.Keys
    ensures forall k :: k in data ==> r[k] == data[k]
    ensures forall k :: k in m && k !in data ==> r[k] == m[k]
  {
    m + data
  }

  /** `state.messages.map(msg => msg.id === id ? { ...msg, ...data } : msg)`. */
  function UpdateWhere(ms: seq<Message>, id: Option<Value>, data: map<string, Value>): seq<Message>
  {
    if |ms| == 0 then []
    else
      var m := ms[0];
      [if IdOf(m) == id then Merge(m, data) else m] + UpdateWhere(ms[1..], id, data)
  }

  /** `appReducer` (AppContext.js:30-106). */
  function Reduce(s: AppState, a: Action): AppState
  {
    match a
    case AddMessage(m) => s.(messages := s.messages + [m])
    case UpdateMessage(id, data) => s.(messages := UpdateWhere(s.messages, id, data))
    case SetMessages(ms) => s.(messages := ms)
    case SetProcessing(f) => s.(isProcessing := f)
    case SetError(e) => s.(error := e)
    case SetPlaying(p) => s.(currentlyPlaying := p)
    case ToggleLanguage => s.(showChinese := !s.showChinese)
    case ClearHistory => s.(messages := [])
    case QueueAudio(x) => s.(audioQueue := s.audioQueue + [x])
    case DequeueAudio => s.(audioQueue := if |s.audioQueue| == 0 then [] else s.audioQueue[1..])
    case StoreAudioData(k, d) => s.(audioData := s.audioData[k := d])
    case Unknown(_) => s
  }

  /** The state after a run of actions, in dispatch order. */
  function ReduceAll(s: AppState, actions: seq<Action>): AppState
    decreases |actions|
  {
    if |actions| == 0 then s else ReduceAll(Reduce(s, actions[0]), actions[1..])
  }

  /** `ADD_MESSAGE` appends the message at the end and changes nothing else. */
  lemma AddMessageAppends(s: AppState, m: Message)
    ensures var t := Reduce(s, AddMessage(m));
      t.messages == s.messages + [m] && t.(messages := s.messages) == s
  {
  }

  /**
   * `UPDATE_MESSAGE` keeps the length and order of the list: a message with
   * the matching id gets the data's keys over its own, every other message
   * is left as it was.
   */
  lemma {:induction false} UpdateMessageInPlace(ms: seq<Message>, id: Option<Value>, data: map<string, Value>)
    ensures var r := UpdateWhere(ms, id, data);
      && |r| == |ms|
      && (forall i :: 0 <= i < |ms| && IdOf(ms[i]) != id ==> r[i] == ms[i])
      && (forall i :: 0 <= i < |ms| && IdOf(ms[i]) == id ==> r[i] == Merge(ms[i], data))
    decreases |ms|
  {
    if |ms| > 0 {
      UpdateMessageInPlace(ms[1..], id, data);
      var r := UpdateWhere(ms, id, data);
      assert r[1..] == UpdateWhere(ms[1..], id, data);
      forall i | 1 <= i < |ms|
        ensures r[i] == (if IdOf(ms[i]) == id then Merge(ms[i], data) else ms[i])
      {
        assert r[i] == r[1..][i - 1] && ms[i] == ms[1..][i - 1];
      }
    }
  }

  /** `UPDATE_MESSAGE` with an id no message carries changes nothing. */
  lemma UpdateMissingIdIsIdentity(s: AppState, id: Option<Value>, data: map<string, Value>)
    requires forall i :: 0 <= i < |s.messages| ==> IdOf(s.messages[i]) != id
    ensures Reduce(s, UpdateMessage(id, data)) == s
  {
    UpdateMessageInPlace(s.messages, id, data);
  }

  /**
   * `SET_MESSAGES`, `SET_PROCESSING`, `SET_ERROR` and `SET_PLAYING` each
   * replace their one field with the payload and keep every other field.
   */
  lemma SettersReplaceOneField(s: AppState, ms: seq<Message>, v: Value)
    ensures var t := Reduce(s, SetMessages(ms)); t.messages == ms && t.(messages := s.messages) == s
    ensures var t := Reduce(s, SetProcessing(v)); t.isProcessing == v && t.(isProcessing := s.isProcessing) == s
    ensures var t := Reduce(s, SetError(v)); t.error == v && t.(error := s.error) == s
    ensures var t := Reduce(s, SetPlaying(v)); t.currentlyPlaying == v && t.(currentlyPlaying := s.currentlyPlaying) == s
  {
  }

  /** `TOGGLE_LANGUAGE` twice is the identity. */
  lemma ToggleTwice(s: AppState)
    ensures Reduce(Reduce(s, ToggleLanguage), ToggleLanguage) == s
  {
  }

  /** `CLEAR_HISTORY` empties the messages only; the audio queue and cache are untouched. */
  lemma ClearKeepsAudio(s: AppState)
    ensures var t := Reduce(s, ClearHistory);
      t.messages == [] && t.audioQueue == s.audioQueue && t.audioData == s.audioData
      && t.(messages := s.messages) == s
  {
  }

  /** `DEQUEUE_AUDIO` on an empty queue leaves it empty. */
  lemma DequeueEmpty(s: AppState)
    requires s.audioQueue == []
    ensures Reduce(s, DequeueAudio) == s
  {
  }

  function Queues(items: seq<Value>): seq<Action>
  {
    seq(|items|, i requires 0 <= i < |items| => QueueAudio(items[i]))
  }

  function Dequeues(n: nat): seq<Action>
  {
    seq(n, _ => DequeueAudio)
  }

  /** Queueing items appends them to the queue in order. */
  lemma {:induction false} QueueAllAppends(s: AppState, items: seq<Value>)
    ensures ReduceAll(s, Queues(items)) == s.(audioQueue := s.audioQueue + items)
    decreases |items|
  {
    if |items| > 0 {
      assert Queues(items)[1..] == Queues(items[1..]);
      QueueAllAppends(Reduce(s, QueueAudio(items[0])), items[1..]);
      assert s.audioQueue + [items[0]] + items[1..] == s.audioQueue + items;
    }
  }

  /** Dequeueing n times drops the first n entries (all of them if there are fewer). */
  lemma {:induction false} DequeueAllDrops(s: AppState, n: nat)
    ensures ReduceAll(s, Dequeues(n))
      == s.(audioQueue := if n <= |s.audioQueue| then s.audioQueue[n..] else [])
    decreases n
  {
    if n > 0 {
      assert Dequeues(n)[1..] == Dequeues(n - 1);
      var t := Reduce(s, DequeueAudio);
      DequeueAllDrops(t, n - 1);
      if |s.audioQueue| > 0 && n <= |s.audioQueue| {
        assert t.audioQueue[n - 1..] == s.audioQueue[n..];
      }
    }
  }

  /** The queue is first in, first out: items queued after the current entries come out after them. */
  lemma QueueIsFifo(s: AppState, items: seq<Value>)
    ensures ReduceAll(ReduceAll(s, Queues(items)), Dequeues(|s.audioQueue|))
      == s.(audioQueue := items)
  {
    QueueAllAppends(s, items);
    var t := ReduceAll(s, Queues(items));
    DequeueAllDrops(t, |s.audioQueue|);
    assert (s.audioQueue + items)[|s.audioQueue|..] == items;
  }

  /** `STORE_AUDIO_DATA` sets exactly one key of the cache and touches nothing else. */
  lemma StoreSetsOneKey(s: AppState, k: string, d: Value)
    ensures var t := Reduce(s, StoreAudioData(k, d));
      && k in t.audioData && t.audioData[k] == d
      && t.audioData.Keys == s.audioData.Keys + {k}
      && (forall j :: j in s.audioData && j != k ==> t.audioData[j] == s.audioData[j])
      && t.(audioData := s.audioData) == s
  {
  }

  /** An unknown action returns the state unchanged. */
  lemma UnknownIsIdentity(s: AppState, kind: string)
    ensures Reduce(s, Unknown(kind)) == s
  {
  }

  /** `state.messages.slice(-100)`: what is written to local storage (AppContext.js:133). */
  function Persisted(ms: seq<Message>): (r: seq<Message>)
    ensures |r| == if |ms| <= 100 then |ms| else 100
    ensures ms == ms[..|ms| - |r|] + r
  {
    if |ms| <= 100 then ms else ms[|ms| - 100..]
  }

  /** Only the last 100 messages are persisted, and the newest one always is. */
  lemma PersistedKeepsNewest(ms: seq<Message>)
    requires |ms| > 0
    ensures Persisted(ms)[|Persisted(ms)| - 1] == ms[|ms| - 1]
    ensures forall i :: 0 <= i < |Persisted(ms)| ==> Persisted(ms)[i] in ms
  {
  }
}
