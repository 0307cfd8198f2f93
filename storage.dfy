/**
 * The browser's key-value store, reduced to what the session relies on: one
 * value per key, overwritten by a write and dropped by a removal. A value is
 * the serialised session when it parses, the empty string, or text that does
 * not parse, or parses to `null`.
 */
module Storage {
  import opened Types

  /** The unit that is saved: the story, the position in it, the scores and the background. */
  datatype SessionState = SessionState(
    story: StoryData,
    currentSceneId: string,
    relationshipScores: RelationshipScores,
    backgroundImage: string)

  /** A stored value: a session that parses back, the empty string, or text that does not parse, or parses to `null`. */
  datatype Blob = Saved(session: SessionState) | Blank | Corrupt

  function Lookup(entries: map<string, Blob>, key: string): Option<Blob> {
    if key in entries then Some(entries[key]) else None
  }

  /** JavaScript truthiness of `getItem`'s result: a missing key and the empty string are both false. */
  predicate Truthy(entry: Option<Blob>) {
    entry.Some? && !entry.value.Blank?
  }

  class Store {
    var entries: map<string, Blob>

    constructor (entries: map<string, Blob>)
      ensures this.entries == entries
    {
      this.entries := entries;
    }

    method GetItem(key: string) returns (entry: Option<Blob>)
      ensures entry.Some? <==> key in entries
      ensures entry.Some? ==> entry.value == entries[key]
    {
      entry := Lookup(entries, key);
    }

    /** Replaces whatever the key held. */
    method SetItem(key: string, value: Blob)
      modifies this
      ensures entries == old(entries)[key := value]
    {
      entries := entries[key := value];
    }

    method RemoveItem(key: string)
      modifies this
      ensures entries == old(entries) - {key}
      ensures key !in entries
    {
      entries := entries - {key};
    }
  }
}
