/** The media store: its three state fields, the two stages of `load`,
    the local merge `updateLocal`, and `save`, which only reads the state.
    The remote answers (the database query, the HTTP call) are parameters. */
module ResonanceStore {
  import opened Wrappers
  import Media

  /** How the awaited database query of `load` ends: it resolves to
      `{ data, error }`, or it rejects. */
  datatype QueryOutcome =
    | Resolved(data: Option<seq<Media.MediaAsset>>, error: Option<string>)
    | Rejected

  /** How the POST of `save` ends: a response with its `ok` flag and the
      body `res.text()` yields (None when reading it rejects), or a thrown error. */
  datatype SaveResponse = Response(ok: bool, text: Option<string>) | Thrown

  /** The three alerts `save` can raise. */
  datatype Alert = Saved | ApiError | NetworkError

  /** The words of each alert. */
  function AlertText(a: Alert): string {
    match a
    case Saved => "Sauvegarde r\U{00E9}ussie \U{2714}"
    case ApiError => "Erreur sauvegarde API"
    case NetworkError => "Erreur r\U{00E9}seau"
  }

  class MediaStore {
    var media: seq<Media.MediaAsset>
    var loading: bool
    var error: Option<string>

    /** While a load is in flight no error is shown. */
    ghost predicate Valid()
      reads this
    {
      loading ==> error == None
    }

    /** The store's initial state: no media, not loading, no error. */
    constructor ()
      ensures Valid()
      ensures media == [] && !loading && error == None
    {
      media := [];
      loading := false;
      error := None;
    }

    /** First stage of `load`: `set({ loading: true, error: null })`. */
    method LoadStart()
      modifies this
      ensures Valid()
      ensures loading && error == None && media == old(media)
    {
      loading := true;
      error := None;
    }

    /** Failure stage of `load`: `set({ error: error.message, loading: false })`. */
    method LoadFail(msg: string)
      modifies this
      ensures Valid()
      ensures !loading && error == Some(msg) && media == old(media)
    {
      error := Some(msg);
      loading := false;
    }

    /** Success stage of `load`: `set({ media: data || [], loading: false })`.
        It leaves `error` as it finds it. */
    method LoadOk(data: Option<seq<Media.MediaAsset>>)
      modifies this
      ensures Valid()
      ensures !loading && error == old(error)
      ensures media == (if data.Some? then data.value else [])
    {
      media := data.GetOr([]);
      loading := false;
    }

    /** The whole of `load`, given how the query ends. A reported error wins
        over any data that comes with it. `load` has no `catch`, so a rejected
        query leaves the store in the state of its first stage. */
    method Load(outcome: QueryOutcome)
      modifies this
      ensures Valid()
      ensures outcome.Rejected? ==> loading && error == None && media == old(media)
      ensures outcome.Resolved? && outcome.error.Some? ==>
        !loading && error == outcome.error && media == old(media)
      ensures outcome.Resolved? && outcome.error.None? ==>
        !loading && error == None && media == outcome.data.GetOr([])
    {
      LoadStart();
      match outcome
      case Rejected =>
        return;
      case Resolved(data, err) =>
        if err.Some? {
          LoadFail(err.value);
          return;
        }
        LoadOk(data);
    }

    /** `updateLocal(path, patch)`: only `media` is replaced. */
    method UpdateLocal(path: string, patch: Media.Patch)
      requires Valid()
      modifies this
      ensures Valid()
      ensures media == Media.UpdateLocal(old(media), path, patch)
      ensures loading == old(loading) && error == old(error)
    {
      media := Media.UpdateLocal(media, path, patch);
    }

    /** `save()`: posts the current list and raises one alert. It has no
        `modifies` clause, so no path through it writes the store. */
    method Save(response: SaveResponse) returns (posted: seq<Media.MediaAsset>, alert: Alert)
      ensures posted == media
      ensures alert == Saved <==> response.Response? && response.ok
      ensures alert == ApiError <==> response.Response? && !response.ok && response.text.Some?
      ensures alert == NetworkError <==> response.Thrown? || (!response.ok && response.text.None?)
    {
      posted := media;
      match response
      case Thrown =>
        alert := NetworkError;
      case Response(ok, text) =>
        if !ok {
          if text.None? {
            // `await res.text()` rejects: control reaches the catch block
            alert := NetworkError;
            return;
          }
          alert := ApiError;
          return;
        }
        alert := Saved;
    }
  }
}
