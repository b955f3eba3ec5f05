/**
 * The track repository: a cache from track id to track that `getAll` fills
 * from the storage file (the first track seen for an id wins and stays), and
 * a lookup by id that answers from the cache when it can. The file's
 * contents are a parameter of each read: None when reading or parsing fails.
 */
module TracksRepository {
  import opened Wrappers

  datatype Track = Track(id: string, text: string)

  /** `tracks.find(t => t.id === id)`: the first track with that id. */
  function FindById(ts: seq<Track>, id: string): (r: Option<Track>)
    ensures r.None? <==> forall i :: 0 <= i < |ts| ==> ts[i].id != id
    ensures r.Some? ==> exists i :: 0 <= i < |ts| && ts[i] == r.value && r.value.id == id
                                    && forall j :: 0 <= j < i ==> ts[j].id != id
  {
    if ts == [] then None
    else if ts[0].id == id then
      Some(ts[0])
    else
      var r := FindById(ts[1..], id);
      if r.Some? then
        var i :| 0 <= i < |ts[1..]| && ts[1..][i] == r.value && r.value.id == id
                 && forall j :: 0 <= j < i ==> ts[1..][j].id != id;
        assert ts[i + 1] == r.value && forall j :: 0 <= j < i + 1 ==> ts[j].id != id;
        r
      else r
  }

  /** One step of the fill: the track is cached unless its id already is. */
  function Offer(c: map<string, Track>, t: Track): map<string, Track> {
    if t.id in c then c else c[t.id := t]
  }

  /** The cache after the `forEach` over the parsed tracks. */
  function Fill(c: map<string, Track>, ts: seq<Track>): map<string, Track>
    decreases |ts|
  {
    if ts == [] then c else Fill(Offer(c, ts[0]), ts[1..])
  }

  /** The ids of a list of tracks. */
  function Ids(ts: seq<Track>): (s: set<string>)
    ensures forall id :: id in s <==> exists i :: 0 <= i < |ts| && ts[i].id == id
  {
    set i | 0 <= i < |ts| :: ts[i].id
  }

  /** No cached entry is removed or replaced by a fill. */
  lemma {:induction false} FillKeeps(c: map<string, Track>, ts: seq<Track>)
    ensures forall k :: k in c ==> k in Fill(c, ts) && Fill(c, ts)[k] == c[k]
    decreases |ts|
  {
    if ts != [] {
      FillKeeps(Offer(c, ts[0]), ts[1..]);
    }
  }

  /** After a fill the cache holds exactly the ids it held and the ids of the tracks. */
  lemma {:induction false} FillKeys(c: map<string, Track>, ts: seq<Track>)
    ensures Fill(c, ts).Keys == c.Keys + Ids(ts)
    decreases |ts|
  {
    if ts != [] {
      FillKeys(Offer(c, ts[0]), ts[1..]);
      assert ts == [ts[0]] + ts[1..];
      assert Ids(ts) == {ts[0].id} + Ids(ts[1..]) by {
        forall id | id in Ids(ts)
          ensures id in {ts[0].id} + Ids(ts[1..])
        {
          var i :| 0 <= i < |ts| && ts[i].id == id;
          if i > 0 {
            assert ts[1..][i - 1].id == id;
          }
        }
        forall id | id in Ids(ts[1..])
          ensures id in Ids(ts)
        {
          var i :| 0 <= i < |ts[1..]| && ts[1..][i].id == id;
          assert ts[i + 1].id == id;
        }
      }
    }
  }

  /** An id not cached before a fill ends up mapped to the first track with that id. */
  lemma {:induction false} FillFirstWins(c: map<string, Track>, ts: seq<Track>, id: string)
    requires id !in c && FindById(ts, id).Some?
    ensures id in Fill(c, ts) && Fill(c, ts)[id] == FindById(ts, id).value
    decreases |ts|
  {
    if ts[0].id == id {
      FillKeeps(Offer(c, ts[0]), ts[1..]);
    } else {
      FillFirstWins(Offer(c, ts[0]), ts[1..], id);
    }
  }

  /** Every cached track is stored under its own id. */
  predicate Consistent(c: map<string, Track>) {
    forall k :: k in c ==> c[k].id == k
  }

  /** A fill keeps every track under its own id. */
  lemma {:induction false} FillConsistent(c: map<string, Track>, ts: seq<Track>)
    requires Consistent(c)
    ensures Consistent(Fill(c, ts))
    decreases |ts|
  {
    if ts != [] {
      FillConsistent(Offer(c, ts[0]), ts[1..]);
    }
  }

  class TrackRepository {
    /** `typetrackCache`. */
    var cache: map<string, Track>
    /** How many times the storage file has been read. */
    var storageReads: nat

    ghost predicate Valid()
      reads this
    {
      Consistent(cache)
    }

    constructor ()
      ensures Valid() && cache == map[] && storageReads == 0
    {
      cache := map[];
      storageReads := 0;
    }

    /**
     * `getAll`: one read of the storage. On failure the answer is empty and
     * the cache is untouched; otherwise every track whose id is not cached
     * yet is cached, and the parsed tracks are returned as they are.
     */
    method GetAll(storage: Option<seq<Track>>) returns (tracks: seq<Track>)
      requires Valid()
      modifies this
      ensures Valid() && storageReads == old(storageReads) + 1
      ensures storage.None? ==> tracks == [] && cache == old(cache)
      ensures storage.Some? ==> tracks == storage.value && cache == Fill(old(cache), storage.value)
    {
      storageReads := storageReads + 1;
      if storage.None? {
        return [];
      }
      var ts := storage.value;
      var i := 0;
      while i < |ts|
        invariant i <= |ts| && storageReads == old(storageReads) + 1
        invariant Fill(cache, ts[i..]) == Fill(old(cache), ts)
      {
        assert ts[i..][0] == ts[i] && ts[i..][1..] == ts[i + 1..];
        if ts[i].id !in cache {
          cache := cache[ts[i].id := ts[i]];
        }
        i := i + 1;
      }
      FillConsistent(old(cache), ts);
      return ts;
    }

    /**
     * `getById`: a cached track without reading the storage; otherwise the
     * first track in a fresh read with that id, None when there is none or
     * the read fails. Either way a found track is the one the cache then holds.
     */
    method GetById(id: string, storage: Option<seq<Track>>) returns (r: Option<Track>)
      requires Valid()
      modifies this
      ensures Valid()
      ensures id in old(cache) ==> r == Some(old(cache)[id]) && cache == old(cache) && storageReads == old(storageReads)
      ensures id !in old(cache) ==>
        && storageReads == old(storageReads) + 1
        && r == (if storage.None? then None else FindById(storage.value, id))
        && cache == (if storage.None? then old(cache) else Fill(old(cache), storage.value))
      ensures r.Some? ==> r.value.id == id && id in cache && cache[id] == r.value
      ensures forall k :: k in old(cache) ==> k in cache && cache[k] == old(cache)[k]
    {
      if id in cache {
        return Some(cache[id]);
      }
      ghost var before := cache;
      var tracks := GetAll(storage);
      FillKeeps(before, tracks);
      r := FindById(tracks, id);
      if r.Some? {
        FillFirstWins(before, tracks, id);
      }
    }
  }
}
