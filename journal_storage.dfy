/**
 * The journal store: the list of journal entries kept in local storage under
 * one key, with append, lookup by id and delete by id. Storage is a map from
 * key to the decoded list; other keys are never touched.
 */
module JournalStorage {
  import opened Wrappers
  import opened Seqs

  datatype Productivity = Yes | Somewhat | No

  /** One day's journal record; the picture is optional. */
  datatype JournalEntry = JournalEntry(
    id: string,
    date: string,
    activities: string,
    dailyReflection: string,
    pictureOfTheDay: Option<string>,
    productivity: Productivity,
    gratitude: string,
    spiritualWin: string,
    mentalWin: string,
    physicalWin: string,
    learningOfTheDay: string,
    createdAt: string)

  const StorageKey: string := "journal_entries"

  /** `entries.find(entry => entry.id === id)`: the first entry with that id. */
  function Find(es: seq<JournalEntry>, id: string): Option<JournalEntry>
    decreases |es|
  {
    if |es| == 0 then None
    else if es[0].id == id then Some(es[0])
    else Find(es[1..], id)
  }

  /** The test `entry.id !== id`. */
  function IdIsNot(id: string): JournalEntry -> bool {
    (e: JournalEntry) => e.id != id
  }

  /** `entries.filter(entry => entry.id !== id)`. */
  function Without(es: seq<JournalEntry>, id: string): seq<JournalEntry> {
    Filter(es, IdIsNot(id))
  }

  /**
   * There is no entry exactly when no entry has the id; otherwise it is an
   * entry with that id and no earlier entry has it.
   */
  lemma {:induction false} FindSpec(es: seq<JournalEntry>, id: string)
    ensures Find(es, id).None? <==> forall k :: 0 <= k < |es| ==> es[k].id != id
    ensures Find(es, id).Some? ==>
              exists k :: 0 <= k < |es| && es[k] == Find(es, id).value && es[k].id == id
                          && forall k' :: 0 <= k' < k ==> es[k'].id != id
    decreases |es|
  {
    if |es| > 0 && es[0].id != id {
      FindSpec(es[1..], id);
      if Find(es, id).Some? {
        var k :| 0 <= k < |es[1..]| && es[1..][k] == Find(es, id).value && es[1..][k].id == id
                 && forall k' :: 0 <= k' < k ==> es[1..][k'].id != id;
        assert es[k + 1] == es[1..][k];
        assert forall k' :: 1 <= k' < k + 1 ==> es[k'] == es[1..][k' - 1];
      }
      assert forall k :: 1 <= k < |es| ==> es[k] == es[1..][k - 1];
    }
  }

  /** Looking up in a list with one more entry at the end. */
  lemma {:induction false} FindAfterAppend(es: seq<JournalEntry>, e: JournalEntry, id: string)
    ensures Find(es + [e], id)
            == if Find(es, id).Some? then Find(es, id) else if e.id == id then Some(e) else None
    decreases |es|
  {
    if |es| == 0 {
      assert es + [e] == [e];
    } else {
      assert (es + [e])[1..] == es[1..] + [e];
      FindAfterAppend(es[1..], e, id);
    }
  }

  /** After a delete there is no entry with that id; every other entry stays, in order. */
  lemma WithoutSpec(es: seq<JournalEntry>, id: string)
    ensures Find(Without(es, id), id).None?
    ensures forall k :: 0 <= k < |es| && es[k].id != id ==> es[k] in Without(es, id)
    ensures Without(Without(es, id), id) == Without(es, id)
  {
    var r := Without(es, id);
    forall k | 0 <= k < |r|
      ensures r[k].id != id
    {
      assert IdIsNot(id)(r[k]);
    }
    forall k | 0 <= k < |es| && es[k].id != id
      ensures es[k] in r
    {
      assert IdIsNot(id)(es[k]);
    }
    FindSpec(r, id);
    FilterIdempotent(es, IdIsNot(id));
  }

  /** Deleting works piece by piece, so the remaining entries keep their order. */
  lemma WithoutAppend(a: seq<JournalEntry>, b: seq<JournalEntry>, id: string)
    ensures Without(a + b, id) == Without(a, id) + Without(b, id)
  {
    FilterAppend(a, b, IdIsNot(id));
  }

  class JournalStore {
    /** Local storage, decoded. */
    var storage: map<string, seq<JournalEntry>>

    constructor (initial: map<string, seq<JournalEntry>>)
      ensures storage == initial
    {
      storage := initial;
    }

    /** `getJournalEntries`: the stored list, or the empty list when the key is absent. */
    function Entries(): (es: seq<JournalEntry>)
      reads this
      ensures StorageKey !in storage ==> es == []
    {
      if StorageKey in storage then storage[StorageKey] else []
    }

    /** `getJournalEntryById`. */
    function EntryById(id: string): Option<JournalEntry>
      reads this
    {
      Find(Entries(), id)
    }

    /** `saveJournalEntry`: read the list, push `entry`, write the list back. */
    method Save(entry: JournalEntry)
      modifies this
      ensures storage == old(storage)[StorageKey := old(Entries()) + [entry]]
      ensures Find(old(Entries()), entry.id).None? ==> EntryById(entry.id) == Some(entry)
    {
      var entries := Entries();
      entries := entries + [entry];
      storage := storage[StorageKey := entries];
      FindAfterAppend(old(Entries()), entry, entry.id);
    }

    /** `deleteJournalEntry`: read the list, drop the entries with id `id`, write the rest back. */
    method Delete(id: string)
      modifies this
      ensures storage == old(storage)[StorageKey := Without(old(Entries()), id)]
      ensures EntryById(id).None?
    {
      var entries := Entries();
      var filtered := Without(entries, id);
      storage := storage[StorageKey := filtered];
      WithoutSpec(entries, id);
    }
  }
}
