/**
 * The feedback store hook: an in-memory list of feedback entries, most
 * recent first, mirrored to one key of the browser's local storage.
 *
 * React runs the save effect after every render in which the list or the
 * loaded flag changed; each operation below is therefore the handler's own
 * update followed by that effect. The pure functions AfterLoad, AfterAdd and
 * AfterClear give the state each operation leaves; the class FeedbackHook
 * performs the same steps in place.
 */
module UseFeedback {
  import opened Wrappers

  /** The local-storage key the list is kept under. */
  const StorageKey: string := "ecofly-feedbacks"

  /** The number of entries the page asks for when it gives no limit. */
  const DefaultRecentLimit: int := 5

  /** What the form hands to addFeedback: an entry without id and date. */
  datatype FeedbackInput = FeedbackInput(name: string, email: Option<string>, product: Option<string>, message: string, rating: int)

  datatype FeedbackMessage = FeedbackMessage(
    id: string, name: string, email: Option<string>, product: Option<string>,
    message: string, rating: int, date: string)

  /**
   * A value held in local storage, seen through the JSON codec: the empty
   * string, the serialisation of a list of entries, or text that does not
   * parse.
   */
  datatype StoredText = EmptyText | Json(entries: seq<FeedbackMessage>) | Malformed(text: string)

  type Storage = map<string, StoredText>

  function Serialize(entries: seq<FeedbackMessage>): (t: StoredText)
    ensures Parse(t) == Some(entries)
    ensures t != EmptyText
  {
    Json(entries)
  }

  /** JSON.parse: the empty string and malformed text are rejected. */
  function Parse(t: StoredText): (r: Option<seq<FeedbackMessage>>)
    ensures r.Some? <==> t.Json?
    ensures t.Json? ==> r == Some(t.entries)
  {
    match t
    case Json(entries) => Some(entries)
    case _ => None
  }

  /** The entry addFeedback builds: the input's fields plus a generated id and date. */
  function NewEntry(input: FeedbackInput, id: string, date: string): (m: FeedbackMessage)
    ensures m.name == input.name && m.email == input.email && m.product == input.product
    ensures m.message == input.message && m.rating == input.rating
    ensures m.id == id && m.date == date
  {
    FeedbackMessage(id, input.name, input.email, input.product, input.message, input.rating, date)
  }

  datatype StoreState = StoreState(feedbacks: seq<FeedbackMessage>, isLoaded: bool, storage: Storage)

  /** The hook as first rendered: no entries, not loaded, storage as the browser holds it. */
  function Initial(storage: Storage): (r: StoreState)
    ensures r.feedbacks == [] && !r.isLoaded && r.storage == storage
    ensures Synced(r)
  {
    StoreState([], false, storage)
  }

  /** Once loaded, storage holds exactly the serialisation of the in-memory list. */
  predicate Synced(s: StoreState) {
    s.isLoaded ==> StorageKey in s.storage && s.storage[StorageKey] == Serialize(s.feedbacks)
  }

  /** The save effect: write the list back, but only once it has been loaded. */
  function AfterSave(s: StoreState): (r: StoreState)
    ensures Synced(r)
    ensures r.feedbacks == s.feedbacks && r.isLoaded == s.isLoaded
    ensures !s.isLoaded ==> r.storage == s.storage
    ensures r.storage - {StorageKey} == s.storage - {StorageKey}
  {
    if s.isLoaded then s.(storage := s.storage[StorageKey := Serialize(s.feedbacks)]) else s
  }

  /** The loadFeedbacks handler, without the save effect that follows it. */
  function LoadHandler(s: StoreState): (r: StoreState)
    ensures r.isLoaded
    ensures StorageKey !in s.storage ==> r.feedbacks == [] && r.storage == s.storage
    ensures StorageKey in s.storage ==>
      match s.storage[StorageKey]
      case EmptyText => r.feedbacks == [] && r.storage == s.storage
      case Json(entries) => r.feedbacks == entries && r.storage == s.storage
      case Malformed(_) => r.feedbacks == [] && r.storage == s.storage - {StorageKey}
  {
    if StorageKey in s.storage && s.storage[StorageKey] != EmptyText then
      match Parse(s.storage[StorageKey])
      case Some(parsed) => s.(feedbacks := parsed, isLoaded := true)
      case None => s.(feedbacks := [], isLoaded := true, storage := s.storage - {StorageKey})
    else
      s.(feedbacks := [], isLoaded := true)
  }

  /** The load effect: it runs only while the store is not loaded, and the save effect follows it. */
  function AfterLoad(s: StoreState): (r: StoreState)
    ensures r.isLoaded
    ensures s.isLoaded ==> r == s
    ensures !s.isLoaded ==> Synced(r)
    ensures !s.isLoaded ==> r.feedbacks == LoadHandler(s).feedbacks
    ensures !s.isLoaded ==> r.storage == s.storage[StorageKey := Serialize(r.feedbacks)]
  {
    if s.isLoaded then s else AfterSave(LoadHandler(s))
  }

  /** addFeedback: the new entry goes in front, then the save effect. */
  function AfterAdd(s: StoreState, entry: FeedbackMessage): (r: StoreState)
    ensures Synced(r)
    ensures |r.feedbacks| == |s.feedbacks| + 1
    ensures r.feedbacks[0] == entry && r.feedbacks[1..] == s.feedbacks
    ensures r.isLoaded == s.isLoaded
    ensures !s.isLoaded ==> r.storage == s.storage
    ensures s.isLoaded ==> r.storage == s.storage[StorageKey := Serialize(r.feedbacks)]
  {
    AfterSave(s.(feedbacks := [entry] + s.feedbacks))
  }

  /**
   * clearAllFeedbacks: empty the list and remove the key, then the save
   * effect. On a loaded store that effect writes the empty list back, so
   * the key ends up holding the serialisation of [] rather than being absent.
   */
  function AfterClear(s: StoreState): (r: StoreState)
    ensures Synced(r)
    ensures r.feedbacks == [] && r.isLoaded == s.isLoaded
    ensures !s.isLoaded ==> StorageKey !in r.storage
    ensures s.isLoaded ==> StorageKey in r.storage && r.storage[StorageKey] == Serialize([])
    ensures r.storage - {StorageKey} == s.storage - {StorageKey}
  {
    AfterSave(s.(feedbacks := [], storage := s.storage - {StorageKey}))
  }

  /** feedbacks.slice(0, limit): a negative limit counts back from the end. */
  function Recent(feedbacks: seq<FeedbackMessage>, limit: int): (r: seq<FeedbackMessage>)
    ensures r <= feedbacks
    ensures 0 <= limit ==> |r| == if limit < |feedbacks| then limit else |feedbacks|
    ensures limit < 0 ==> |r| == if |feedbacks| + limit > 0 then |feedbacks| + limit else 0
  {
    if limit >= |feedbacks| then feedbacks
    else if limit >= 0 then feedbacks[..limit]
    else if |feedbacks| + limit <= 0 then []
    else feedbacks[..|feedbacks| + limit]
  }

  lemma ClearIsIdempotent(s: StoreState)
    ensures AfterClear(AfterClear(s)) == AfterClear(s)
  {
    var once := AfterClear(s);
    assert once.storage == AfterClear(once).storage;
  }

  /** A store created on the storage that a clear left behind loads no entries. */
  lemma ClearThenReloadIsEmpty(s: StoreState)
    ensures AfterLoad(Initial(AfterClear(s).storage)).feedbacks == []
  {
  }

  /** A store created on storage holding a serialised list loads exactly that list. */
  lemma ReloadRestoresSaved(s: StoreState)
    requires s.isLoaded && Synced(s)
    ensures AfterLoad(Initial(s.storage)).feedbacks == s.feedbacks
  {
  }

  lemma RecentOneAfterAdd(s: StoreState, entry: FeedbackMessage)
    ensures Recent(AfterAdd(s, entry).feedbacks, 1) == [entry]
  {
  }

  /** Entries added one after another, oldest first. */
  function AfterAddAll(s: StoreState, entries: seq<FeedbackMessage>): (r: StoreState)
    ensures r.isLoaded == s.isLoaded
    decreases |entries|
  {
    if entries == [] then s
    else AfterAdd(AfterAddAll(s, entries[..|entries| - 1]), entries[|entries| - 1])
  }

  function Reversed(entries: seq<FeedbackMessage>): (r: seq<FeedbackMessage>)
    ensures |r| == |entries|
    ensures forall k :: 0 <= k < |entries| ==> r[k] == entries[|entries| - 1 - k]
    decreases |entries|
  {
    if entries == [] then [] else [entries[|entries| - 1]] + Reversed(entries[..|entries| - 1])
  }

  /** After adding e1, ..., eN the list reads eN, ..., e1 followed by what was there before. */
  lemma {:induction false} AddAllPrependsReversed(s: StoreState, entries: seq<FeedbackMessage>)
    ensures AfterAddAll(s, entries).feedbacks == Reversed(entries) + s.feedbacks
    decreases |entries|
  {
    if entries != [] {
      var init, last := entries[..|entries| - 1], entries[|entries| - 1];
      AddAllPrependsReversed(s, init);
      var before := AfterAddAll(s, init);
      var after := AfterAdd(before, last);
      assert after.feedbacks == [last] + before.feedbacks;
    }
  }

  /** After N additions the N most recent entries are exactly those, newest first. */
  lemma RecentAfterAddsIsNewestFirst(s: StoreState, entries: seq<FeedbackMessage>)
    ensures Recent(AfterAddAll(s, entries).feedbacks, |entries|) == Reversed(entries)
    ensures |AfterAddAll(s, entries).feedbacks| == |s.feedbacks| + |entries|
  {
    AddAllPrependsReversed(s, entries);
  }

  /** The hook's state, updated in place by its operations. */
  class FeedbackHook {
    var feedbacks: seq<FeedbackMessage>
    var isLoaded: bool
    var storage: Storage

    function State(): StoreState
      reads this
    {
      StoreState(feedbacks, isLoaded, storage)
    }

    ghost predicate Valid()
      reads this
    {
      Synced(State())
    }

    constructor (storage: Storage)
      ensures Valid() && State() == Initial(storage)
    {
      feedbacks, isLoaded, this.storage := [], false, storage;
    }

    function FeedbacksCount(): (n: nat)
      reads this
      ensures n == |State().feedbacks|
      ensures n == 0 <==> feedbacks == []
    {
      |feedbacks|
    }

    /** The save effect. */
    method SaveEffect()
      modifies this`storage
      ensures Valid() && State() == AfterSave(old(State()))
    {
      if isLoaded {
        storage := storage[StorageKey := Serialize(feedbacks)];
      }
    }

    /** The load effect: read, parse, fall back to [] and drop a corrupt value; then save. */
    method LoadEffect()
      requires Valid()
      modifies this
      ensures Valid() && State() == AfterLoad(old(State()))
    {
      if !isLoaded {
        if StorageKey in storage && storage[StorageKey] != EmptyText {
          var parsed := Parse(storage[StorageKey]);
          if parsed.Some? {
            feedbacks := parsed.value;
          } else {
            storage := storage - {StorageKey};
            feedbacks := [];
          }
        } else {
          feedbacks := [];
        }
        isLoaded := true;
        SaveEffect();
      }
    }

    method AddFeedback(input: FeedbackInput, id: string, date: string) returns (newId: string)
      requires Valid()
      modifies this
      ensures Valid() && State() == AfterAdd(old(State()), NewEntry(input, id, date))
      ensures newId == id
    {
      var entry := FeedbackMessage(id, input.name, input.email, input.product, input.message, input.rating, date);
      feedbacks := [entry] + feedbacks;
      SaveEffect();
      newId := entry.id;
    }

    method GetRecentFeedbacks(limit: int := DefaultRecentLimit) returns (recent: seq<FeedbackMessage>)
      ensures recent <= feedbacks
      ensures 0 <= limit ==> |recent| == if limit < |feedbacks| then limit else |feedbacks|
      ensures limit < 0 ==> |recent| == if |feedbacks| + limit > 0 then |feedbacks| + limit else 0
    {
      recent := Recent(feedbacks, limit);
    }

    method ClearAllFeedbacks()
      requires Valid()
      modifies this
      ensures Valid() && State() == AfterClear(old(State()))
    {
      feedbacks := [];
      storage := storage - {StorageKey};
      SaveEffect();
    }
  }
}
