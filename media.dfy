/** The media assets held by the store, partial updates of them, and the
    merge-by-path update `updateLocal` applies to the store's list. */
module Media {
  import opened Wrappers

  datatype Category = Music | Video | Text | Voice | Shader

  datatype Climate = Calm | Deep | Luminous | Tense | Contrast

  datatype Role = Background | Support | Accent | Punctuation

  /** A JavaScript number meant to lie in 0..1. The store only copies it,
      so no arithmetic on it is modelled. */
  type Energy = real

  datatype MediaAsset = MediaAsset(
    path: string,
    category: Category,
    climate: Climate,
    energy: Energy,
    role: Role,
    enabled: bool)

  /** A `Partial<MediaAsset>`: every key, `path` included, may be absent (None). */
  datatype Patch = Patch(
    path: Option<string>,
    category: Option<Category>,
    climate: Option<Climate>,
    energy: Option<Energy>,
    role: Option<Role>,
    enabled: Option<bool>)

  /** The empty object `{}`. */
  const NoChange: Patch := Patch(None, None, None, None, None, None)

  /** `{ ...m, ...patch }`: each key the patch carries overrides the asset's;
      each key it lacks passes the asset's value through. */
  function Apply(m: MediaAsset, patch: Patch): (r: MediaAsset)
    ensures r.path == (if patch.path.Some? then patch.path.value else m.path)
    ensures r.category == (if patch.category.Some? then patch.category.value else m.category)
    ensures r.climate == (if patch.climate.Some? then patch.climate.value else m.climate)
    ensures r.energy == (if patch.energy.Some? then patch.energy.value else m.energy)
    ensures r.role == (if patch.role.Some? then patch.role.value else m.role)
    ensures r.enabled == (if patch.enabled.Some? then patch.enabled.value else m.enabled)
  {
    MediaAsset(
      patch.path.GetOr(m.path),
      patch.category.GetOr(m.category),
      patch.climate.GetOr(m.climate),
      patch.energy.GetOr(m.energy),
      patch.role.GetOr(m.role),
      patch.enabled.GetOr(m.enabled))
  }

  /** `{ ...first, ...second }` of two patches: the keys of `second` win, so
      spreading `first` and then `second` over any asset is one spread of it. */
  function Then(first: Patch, second: Patch): (r: Patch)
    ensures forall m :: Apply(Apply(m, first), second) == Apply(m, r)
  {
    Patch(
      if second.path.Some? then second.path else first.path,
      if second.category.Some? then second.category else first.category,
      if second.climate.Some? then second.climate else first.climate,
      if second.energy.Some? then second.energy else first.energy,
      if second.role.Some? then second.role else first.role,
      if second.enabled.Some? then second.enabled else first.enabled)
  }

  /** `media.map((m) => m.path === path ? { ...m, ...patch } : m)`.
      `UpdateLocalAt` below characterises every element of the result. */
  function UpdateLocal(media: seq<MediaAsset>, path: string, patch: Patch): (r: seq<MediaAsset>)
    ensures |r| == |media|
  {
    if media == [] then []
    else
      var m := media[0];
      [if m.path == path then Apply(m, patch) else m] + UpdateLocal(media[1..], path, patch)
  }

  // ---------------------------------------------------------------------
  // The spread merge
  // ---------------------------------------------------------------------

  /** Spreading the empty object changes nothing. */
  lemma ApplyNoChange(m: MediaAsset)
    ensures Apply(m, NoChange) == m
  {
  }

  /** Spreading the same patch a second time changes nothing more. */
  lemma ApplyIdempotent(m: MediaAsset, patch: Patch)
    ensures Apply(Apply(m, patch), patch) == Apply(m, patch)
  {
  }

  // ---------------------------------------------------------------------
  // updateLocal over the list
  // ---------------------------------------------------------------------

  /** The asset at index i of the result comes from index i of the input:
      merged with the patch when its path matches, untouched otherwise. */
  lemma {:induction false} UpdateLocalAt(media: seq<MediaAsset>, path: string, patch: Patch, i: nat)
    requires i < |media|
    ensures |UpdateLocal(media, path, patch)| == |media|
    ensures UpdateLocal(media, path, patch)[i]
         == if media[i].path == path then Apply(media[i], patch) else media[i]
  {
    if i > 0 {
      UpdateLocalAt(media[1..], path, patch, i - 1);
    }
  }

  /** Every asset whose path differs from the argument is returned as it was. */
  lemma {:induction false} UpdateLocalKeepsOthers(media: seq<MediaAsset>, path: string, patch: Patch)
    ensures forall i :: 0 <= i < |media| && media[i].path != path ==>
      UpdateLocal(media, path, patch)[i] == media[i]
  {
    forall i | 0 <= i < |media| && media[i].path != path
      ensures UpdateLocal(media, path, patch)[i] == media[i]
    {
      UpdateLocalAt(media, path, patch, i);
    }
  }

  /** Every asset whose path matches (all of them, not only the first) takes
      each field the patch carries and keeps each field it does not. */
  lemma {:induction false} UpdateLocalMerges(media: seq<MediaAsset>, path: string, patch: Patch)
    ensures forall i :: 0 <= i < |media| && media[i].path == path ==>
      var r := UpdateLocal(media, path, patch)[i];
      && r.path == (if patch.path.Some? then patch.path.value else media[i].path)
      && r.category == (if patch.category.Some? then patch.category.value else media[i].category)
      && r.climate == (if patch.climate.Some? then patch.climate.value else media[i].climate)
      && r.energy == (if patch.energy.Some? then patch.energy.value else media[i].energy)
      && r.role == (if patch.role.Some? then patch.role.value else media[i].role)
      && r.enabled == (if patch.enabled.Some? then patch.enabled.value else media[i].enabled)
  {
    forall i | 0 <= i < |media| && media[i].path == path {
      UpdateLocalAt(media, path, patch, i);
    }
  }

  /** The list comes back equal to its input exactly when every matching asset
      already agrees with the patch. */
  lemma {:induction false} UpdateLocalUnchangedIff(media: seq<MediaAsset>, path: string, patch: Patch)
    ensures UpdateLocal(media, path, patch) == media
        <==> forall i :: 0 <= i < |media| && media[i].path == path ==> Apply(media[i], patch) == media[i]
  {
    var r := UpdateLocal(media, path, patch);
    forall i | 0 <= i < |media|
      ensures r[i] == (if media[i].path == path then Apply(media[i], patch) else media[i])
    {
      UpdateLocalAt(media, path, patch, i);
    }
  }

  /** If no asset has the given path, the list comes back equal to its input. */
  lemma {:induction false} UpdateLocalNoMatch(media: seq<MediaAsset>, path: string, patch: Patch)
    requires forall i :: 0 <= i < |media| ==> media[i].path != path
    ensures UpdateLocal(media, path, patch) == media
  {
    UpdateLocalUnchangedIff(media, path, patch);
  }

  /** An empty patch leaves the list equal to its input, whatever the path. */
  lemma {:induction false} UpdateLocalNoChange(media: seq<MediaAsset>, path: string)
    ensures UpdateLocal(media, path, NoChange) == media
  {
    forall i | 0 <= i < |media| && media[i].path == path
      ensures Apply(media[i], NoChange) == media[i]
    {
      ApplyNoChange(media[i]);
    }
    UpdateLocalUnchangedIff(media, path, NoChange);
  }

  /** Applying the same update twice gives the list applying it once gives,
      also when the patch rewrites `path`. */
  lemma {:induction false} UpdateLocalIdempotent(media: seq<MediaAsset>, path: string, patch: Patch)
    ensures UpdateLocal(UpdateLocal(media, path, patch), path, patch) == UpdateLocal(media, path, patch)
  {
    var once := UpdateLocal(media, path, patch);
    var twice := UpdateLocal(once, path, patch);
    forall i | 0 <= i < |media| ensures twice[i] == once[i] {
      UpdateLocalAt(media, path, patch, i);
      UpdateLocalAt(once, path, patch, i);
      ApplyIdempotent(media[i], patch);
    }
  }

  /** A patch that gives matching assets a new path leaves no asset with the old one. */
  lemma {:induction false} UpdateLocalRenameClears(media: seq<MediaAsset>, path: string, patch: Patch)
    requires patch.path.Some? && patch.path.value != path
    ensures forall i :: 0 <= i < |media| ==> UpdateLocal(media, path, patch)[i].path != path
  {
    forall i | 0 <= i < |media| ensures UpdateLocal(media, path, patch)[i].path != path {
      UpdateLocalAt(media, path, patch, i);
    }
  }

  /** Two edits of the same path, the first of which keeps the path, amount
      to one edit with the combined patch. */
  lemma {:induction false} UpdateLocalThen(media: seq<MediaAsset>, path: string, first: Patch, second: Patch)
    requires first.path == None || first.path == Some(path)
    ensures UpdateLocal(UpdateLocal(media, path, first), path, second)
         == UpdateLocal(media, path, Then(first, second))
  {
    var mid := UpdateLocal(media, path, first);
    forall i | 0 <= i < |media|
      ensures UpdateLocal(mid, path, second)[i] == UpdateLocal(media, path, Then(first, second))[i]
    {
      UpdateLocalAt(media, path, first, i);
      UpdateLocalAt(mid, path, second, i);
      UpdateLocalAt(media, path, Then(first, second), i);
    }
  }

  /** Edits of two different paths, neither of which renames, can be made in either order. */
  lemma {:induction false} UpdateLocalCommute(media: seq<MediaAsset>, a: string, p: Patch, b: string, q: Patch)
    requires a != b
    requires p.path == None || p.path == Some(a)
    requires q.path == None || q.path == Some(b)
    ensures UpdateLocal(UpdateLocal(media, a, p), b, q) == UpdateLocal(UpdateLocal(media, b, q), a, p)
  {
    var ap := UpdateLocal(media, a, p);
    var bq := UpdateLocal(media, b, q);
    forall i | 0 <= i < |media|
      ensures UpdateLocal(ap, b, q)[i] == UpdateLocal(bq, a, p)[i]
    {
      UpdateLocalAt(media, a, p, i);
      UpdateLocalAt(media, b, q, i);
      UpdateLocalAt(ap, b, q, i);
      UpdateLocalAt(bq, a, p, i);
    }
  }
}
