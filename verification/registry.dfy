/**
 The static model registry: two parallel lists, display names and the backend
 ids they stand for, where the name at index i denotes the id at index i.
 */
module Registry {
  import opened Options

  /** Display names offered for selection, in menu order. */
  const ModelList: seq<string> := ["Dreamshaper7", "Dreamshaper8", "AbsoluteReality", "RevAnimated", "Protogen"]

  /** Backend (hub) ids, parallel to `ModelList`. */
  const ModelIds: seq<string> := ["Lykon/dreamshaper-7", "Lykon/dreamshaper-8", "Lykon/absolute-reality-1.81", "danbrown/RevAnimated-v1-2-2", "darkstorm2150/Protogen_x5.8_Official_Release"]

  /** The model `load_models` builds when called without an id. */
  const DefaultModelId: string := "Lykon/dreamshaper-7"

  /** No display name is listed twice, so a name picks out one index. */
  predicate Distinct(s: seq<string>)
  {
    forall i, j :: 0 <= i < j < |s| ==> s[i] != s[j]
  }

  /** The first index at which `x` is listed, or None when it is not listed. */
  function IndexOf(s: seq<string>, x: string): (r: Option<nat>)
    ensures r.None? <==> x !in s
    ensures r.Some? ==> r.value < |s| && s[r.value] == x
    ensures r.Some? ==> forall j :: 0 <= j < r.value ==> s[j] != x
  {
    if |s| == 0 then None
    else if s[0] == x then Some(0)
    else
      match IndexOf(s[1..], x)
      case None => None
      case Some(i) => Some(i + 1)
  }

  /** The two lists are parallel (five entries each) and no display name repeats. */
  lemma RegistryWellFormed()
    ensures |ModelList| == |ModelIds| == 5
    ensures Distinct(ModelList)
    ensures Distinct(ModelIds)
    ensures forall i :: 0 <= i < |ModelIds| ==> |ModelIds[i]| > 0
  {
  }

  /** The backend id paired with a display name; None for a name that is not listed. */
  function Resolve(displayName: string): (r: Option<string>)
    ensures r.None? <==> displayName !in ModelList
    ensures r.Some? ==> r.value in ModelIds
    ensures forall i :: 0 <= i < |ModelList| && ModelList[i] == displayName ==> r == Some(ModelIds[i])
  {
    RegistryWellFormed();
    match IndexOf(ModelList, displayName)
    case None => None
    case Some(i) => Some(ModelIds[i])
  }

  /** Resolving the i-th display name yields the i-th backend id, for every index. */
  lemma ResolveAtIndex(i: int)
    requires 0 <= i < |ModelList|
    ensures Resolve(ModelList[i]) == Some(ModelIds[i])
  {
  }

  /** Every backend id is reached by resolving the display name at the same index. */
  lemma {:induction false} EveryIdResolvable(id: string)
    requires id in ModelIds
    ensures exists name :: name in ModelList && Resolve(name) == Some(id)
  {
    RegistryWellFormed();
    var i :| 0 <= i < |ModelIds| && ModelIds[i] == id;
    ResolveAtIndex(i);
    assert ModelList[i] in ModelList;
  }

  /** "Dreamshaper7" resolves to the default model; an unlisted name resolves to None. */
  lemma ResolveExamples()
    ensures Resolve("Dreamshaper7") == Some("Lykon/dreamshaper-7")
    ensures Resolve("Dreamshaper7") == Some(DefaultModelId)
    ensures Resolve("Nonexistent") == None
  {
    ResolveAtIndex(0);
  }
}
