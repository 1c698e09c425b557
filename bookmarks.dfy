/**
 * The bookmark store of the chat client: the reducer over the list of saved
 * phrases, the membership and category queries offered to components, and the
 * conversion of a chat message into a saved phrase.
 */
module Bookmarks {
  import opened Common

  datatype Category = Correction | Bookmark | Translation

  /** One saved phrase; optional properties of the record are `Option`s. */
  datatype SavedPhrase = SavedPhrase(
    id: string,
    content: string,
    translation: Option<string>,
    category: Category,
    timestamp: string,
    originalContent: Option<string>)

  datatype BookmarkState = BookmarkState(savedPhrases: seq<SavedPhrase>)

  /** The four action kinds the store dispatches, and any other object handed to the reducer. */
  datatype BookmarkAction =
    | LoadBookmarks(phrases: seq<SavedPhrase>)
    | AddBookmark(phrase: SavedPhrase)
    | RemoveBookmark(id: string)
    | UpdateBookmark(phrase: SavedPhrase)
    | OtherAction(kind: string)

  /** `b` can be obtained from `a` by deleting elements (order kept). */
  ghost predicate IsSubsequence<T>(b: seq<T>, a: seq<T>)
    decreases |a|
  {
    if b == [] then true
    else if a == [] then false
    else if b[0] == a[0] then IsSubsequence(b[1..], a[1..])
    else IsSubsequence(b, a[1..])
  }

  /** `Array.prototype.filter`: the elements that `keep` accepts, in their original order. */
  function Filter<T(!new)>(s: seq<T>, keep: T -> bool): (r: seq<T>)
    ensures |r| <= |s|
    ensures forall x :: multiset(r)[x] == if keep(x) then multiset(s)[x] else 0
    ensures IsSubsequence(r, s)
  {
    if s == [] then []
    else
      var rest := Filter(s[1..], keep);
      assert s == [s[0]] + s[1..];
      if keep(s[0]) then
        assert ([s[0]] + rest)[1..] == rest;
        [s[0]] + rest
      else
        assert rest != [] ==> rest[0] in multiset(rest);
        rest
  }

  /** `Array.prototype.map` with the update-by-id callback. */
  function ReplaceById(s: seq<SavedPhrase>, phrase: SavedPhrase): (r: seq<SavedPhrase>)
    ensures |r| == |s|
    ensures forall i :: 0 <= i < |s| ==> r[i] == if s[i].id == phrase.id then phrase else s[i]
  {
    if s == [] then []
    else [if s[0].id == phrase.id then phrase else s[0]] + ReplaceById(s[1..], phrase)
  }

  /** `isBookmarked`: some saved phrase has this id. */
  predicate IsBookmarked(s: seq<SavedPhrase>, id: string)
  {
    exists i :: 0 <= i < |s| && s[i].id == id
  }

  /** The id a phrase saved from chat message `messageId` carries. */
  function MessageBookmarkId(messageId: string): string
  {
    "bookmark-" + messageId
  }

  /** Different messages get different bookmark ids: the prefix is fixed, so the id gives the message back. */
  lemma MessageBookmarkIdsDiffer(m1: string, m2: string)
    ensures MessageBookmarkId(m1) == MessageBookmarkId(m2) ==> m1 == m2
  {
    var prefix := |"bookmark-"|;
    assert MessageBookmarkId(m1)[prefix..] == m1;
    assert MessageBookmarkId(m2)[prefix..] == m2;
  }

  /** `isMessageBookmarked`: the message's bookmark id is among the saved ids. */
  predicate IsMessageBookmarked(s: seq<SavedPhrase>, messageId: string)
    ensures IsMessageBookmarked(s, messageId) <==> IsBookmarked(s, MessageBookmarkId(messageId))
  {
    exists i :: 0 <= i < |s| && s[i].id == MessageBookmarkId(messageId)
  }

  /** `getBookmarkedPhrases`: the phrases whose category is "bookmark", in order. */
  function BookmarkedPhrases(s: seq<SavedPhrase>): (r: seq<SavedPhrase>)
    ensures forall p :: p in r ==> p.category == Bookmark
    ensures forall p :: p in s && p.category == Bookmark ==> p in r
    ensures forall p :: multiset(r)[p] == if p.category == Bookmark then multiset(s)[p] else 0
    ensures IsSubsequence(r, s)
  {
    var r := Filter(s, (p: SavedPhrase) => p.category == Bookmark);
    assert forall p :: p in r ==> multiset(r)[p] > 0;
    assert forall p :: p in s ==> multiset(s)[p] > 0;
    r
  }

  /** `bookmarkReducer`. */
  function Reduce(state: BookmarkState, action: BookmarkAction): (r: BookmarkState)
    ensures action.LoadBookmarks? ==> r.savedPhrases == action.phrases
    ensures action.AddBookmark? ==>
      && |r.savedPhrases| == |state.savedPhrases| + 1
      && r.savedPhrases[..|state.savedPhrases|] == state.savedPhrases
      && r.savedPhrases[|state.savedPhrases|] == action.phrase
    ensures action.RemoveBookmark? ==>
      && !IsBookmarked(r.savedPhrases, action.id)
      && IsSubsequence(r.savedPhrases, state.savedPhrases)
      && forall p: SavedPhrase :: p.id != action.id ==>
           multiset(r.savedPhrases)[p] == multiset(state.savedPhrases)[p]
    ensures action.UpdateBookmark? ==>
      && |r.savedPhrases| == |state.savedPhrases|
      && forall i :: 0 <= i < |state.savedPhrases| ==>
           (state.savedPhrases[i].id == action.phrase.id ==> r.savedPhrases[i] == action.phrase)
           && (state.savedPhrases[i].id != action.phrase.id ==> r.savedPhrases[i] == state.savedPhrases[i])
    ensures action.OtherAction? ==> r == state
  {
    match action
    case LoadBookmarks(phrases) => BookmarkState(phrases)
    case AddBookmark(phrase) => BookmarkState(state.savedPhrases + [phrase])
    case RemoveBookmark(id) =>
      var kept := Filter(state.savedPhrases, (p: SavedPhrase) => p.id != id);
      assert forall i :: 0 <= i < |kept| ==> multiset(kept)[kept[i]] > 0;
      BookmarkState(kept)
    case UpdateBookmark(phrase) => BookmarkState(ReplaceById(state.savedPhrases, phrase))
    case OtherAction(_) => state
  }

  /** Updating a phrase whose id is not saved leaves the list as it is. */
  lemma UpdateAbsentIsNoOp(state: BookmarkState, phrase: SavedPhrase)
    requires !IsBookmarked(state.savedPhrases, phrase.id)
    ensures Reduce(state, UpdateBookmark(phrase)) == state
  {
    var r := Reduce(state, UpdateBookmark(phrase)).savedPhrases;
    assert r == state.savedPhrases;
  }

  /** Updating keeps the set of saved ids: the same ids are bookmarked before and after. */
  lemma UpdateKeepsIds(state: BookmarkState, phrase: SavedPhrase, id: string)
    ensures IsBookmarked(Reduce(state, UpdateBookmark(phrase)).savedPhrases, id)
        <==> IsBookmarked(state.savedPhrases, id)
  {
    var s := state.savedPhrases;
    var r := Reduce(state, UpdateBookmark(phrase)).savedPhrases;
    if IsBookmarked(s, id) {
      var i :| 0 <= i < |s| && s[i].id == id;
      assert r[i].id == id;
    }
    if IsBookmarked(r, id) {
      var i :| 0 <= i < |r| && r[i].id == id;
      assert s[i].id == id;
    }
  }

  /** Adding a phrase makes its id bookmarked and keeps every earlier id bookmarked. */
  lemma AddMakesBookmarked(state: BookmarkState, phrase: SavedPhrase, id: string)
    ensures IsBookmarked(Reduce(state, AddBookmark(phrase)).savedPhrases, id)
        <==> id == phrase.id || IsBookmarked(state.savedPhrases, id)
  {
    var s := state.savedPhrases;
    var r := Reduce(state, AddBookmark(phrase)).savedPhrases;
    if IsBookmarked(s, id) {
      var i :| 0 <= i < |s| && s[i].id == id;
      assert r[i] == s[i];
    }
    if id == phrase.id {
      assert r[|s|].id == id;
    }
  }

  /** A truthy optional string: present and not empty. */
  predicate Truthy(o: Option<string>)
  {
    o.Some? && o.value != ""
  }

  /** The category rule of `createSavedPhraseFromMessage`. */
  function CategoryFor(corrected: Option<string>, translated: Option<string>, forceBookmark: bool): Category
  {
    if forceBookmark then Bookmark
    else if Truthy(corrected) then Correction
    else if Truthy(translated) then Translation
    else Bookmark
  }

  /**
   * `createSavedPhraseFromMessage`; the formatted wall-clock time is passed in as
   * `timestamp`.
   */
  function CreateSavedPhraseFromMessage(
    messageId: string, content: string, corrected: Option<string>, translated: Option<string>,
    original: Option<string>, forceBookmark: bool, timestamp: string): (r: SavedPhrase)
    ensures r.id == MessageBookmarkId(messageId)
    ensures r.category == Bookmark <==> forceBookmark || (!Truthy(corrected) && !Truthy(translated))
    ensures r.category == Correction <==> !forceBookmark && Truthy(corrected)
    ensures r.category == Translation <==> !forceBookmark && !Truthy(corrected) && Truthy(translated)
    ensures Truthy(corrected) ==> r.content == corrected.value
    ensures !Truthy(corrected) && Truthy(translated) ==> r.content == translated.value
    ensures !Truthy(corrected) && !Truthy(translated) ==> r.content == content
    ensures r.translation == if r.category == Translation then Some(content) else translated
    ensures r.originalContent == original && r.timestamp == timestamp
  {
    var category := CategoryFor(corrected, translated, forceBookmark);
    var finalContent :=
      if Truthy(corrected) then corrected.value
      else if Truthy(translated) then translated.value
      else content;
    var translation := if category == Translation then Some(content) else translated;
    SavedPhrase(MessageBookmarkId(messageId), finalContent, translation, category, timestamp, original)
  }

  /** Saving a message and then asking whether that message is bookmarked answers yes. */
  lemma SavedMessageIsBookmarked(
    state: BookmarkState, messageId: string, content: string, corrected: Option<string>,
    translated: Option<string>, original: Option<string>, forceBookmark: bool, timestamp: string)
    ensures IsMessageBookmarked(
      Reduce(state, AddBookmark(CreateSavedPhraseFromMessage(
        messageId, content, corrected, translated, original, forceBookmark, timestamp))).savedPhrases,
      messageId)
  {
    var p := CreateSavedPhraseFromMessage(messageId, content, corrected, translated, original, forceBookmark, timestamp);
    var r := Reduce(state, AddBookmark(p)).savedPhrases;
    assert r[|state.savedPhrases|] == p;
  }

  /** Removing the message's bookmark id makes the message unbookmarked. */
  lemma RemovedMessageIsNotBookmarked(state: BookmarkState, messageId: string)
    ensures !IsMessageBookmarked(
      Reduce(state, RemoveBookmark(MessageBookmarkId(messageId))).savedPhrases, messageId)
  {
    var r := Reduce(state, RemoveBookmark(MessageBookmarkId(messageId))).savedPhrases;
    assert !IsBookmarked(r, MessageBookmarkId(messageId));
  }

  /** A phrase saved from the bookmark button is listed by `getBookmarkedPhrases` once added. */
  lemma ForcedBookmarkIsListed(
    state: BookmarkState, messageId: string, content: string, corrected: Option<string>,
    translated: Option<string>, original: Option<string>, timestamp: string)
    ensures CreateSavedPhraseFromMessage(messageId, content, corrected, translated, original, true, timestamp)
      in BookmarkedPhrases(Reduce(state, AddBookmark(CreateSavedPhraseFromMessage(
           messageId, content, corrected, translated, original, true, timestamp))).savedPhrases)
  {
    var p := CreateSavedPhraseFromMessage(messageId, content, corrected, translated, original, true, timestamp);
    var r := Reduce(state, AddBookmark(p)).savedPhrases;
    assert r[|state.savedPhrases|] == p;
  }
}
