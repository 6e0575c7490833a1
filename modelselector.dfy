/** The model picker's search filter and the label of the selected model. */
module ModelSelector {
  import opened Common
  import opened Text

  /** An entry of the model list; only the fields the picker's rules read. */
  datatype OpenRouterModel = OpenRouterModel(id: string, name: string, contextLength: int)

  /** Whether a model matches a search: its name or its id contains the
      query, all three lowered by `lower` (`toLowerCase`, kept abstract). */
  predicate Matches(m: OpenRouterModel, query: string, lower: string -> string) {
    Includes(lower(m.name), lower(query)) || Includes(lower(m.id), lower(query))
  }

  /** `filtered`: the whole list for an empty query, else the matching models. */
  function Filtered(models: seq<OpenRouterModel>, query: string, lower: string -> string): (r: seq<OpenRouterModel>)
    ensures |r| <= |models|
    ensures forall i :: 0 <= i < |r| ==> r[i] in models
  {
    if query == [] then models else Filter(models, (m: OpenRouterModel) => Matches(m, query, lower))
  }

  /** An empty query shows every model; any query shows a subsequence of
      the list, in its order, holding exactly the models that match. */
  lemma FilteredSpec(models: seq<OpenRouterModel>, query: string, lower: string -> string)
    ensures query == [] ==> Filtered(models, query, lower) == models
    ensures Subsequence(Filtered(models, query, lower), models)
    ensures forall i :: 0 <= i < |Filtered(models, query, lower)| ==>
      query == [] || Matches(Filtered(models, query, lower)[i], query, lower)
    ensures forall i :: 0 <= i < |models| && (query == [] || Matches(models[i], query, lower)) ==>
      models[i] in Filtered(models, query, lower)
  {
    if query == [] {
      SubsequenceOfSelf(models);
    } else {
      FilterSubsequence(models, (m: OpenRouterModel) => Matches(m, query, lower));
    }
  }

  /** `i` is the position of the first model with the given id. */
  predicate FirstWithId(models: seq<OpenRouterModel>, id: string, i: int) {
    0 <= i < |models| && models[i].id == id && forall k :: 0 <= k < i ==> models[k].id != id
  }

  /** `selectedName`: `find` by id, then its name, else the selected id. */
  function SelectedName(models: seq<OpenRouterModel>, selected: string): (r: string)
    ensures r == selected || exists i :: 0 <= i < |models| && models[i].id == selected && models[i].name == r
  {
    if models == [] then selected
    else if models[0].id == selected then models[0].name
    else SelectedName(models[1..], selected)
  }

  /** The label is the name of the first model whose id is the selected
      one, or the selected id itself when no model has it. */
  lemma {:induction false} SelectedNameSpec(models: seq<OpenRouterModel>, selected: string)
    ensures (exists i :: FirstWithId(models, selected, i) && SelectedName(models, selected) == models[i].name)
         || ((forall k :: 0 <= k < |models| ==> models[k].id != selected) && SelectedName(models, selected) == selected)
  {
    if models == [] {
    } else if models[0].id == selected {
      assert FirstWithId(models, selected, 0);
    } else {
      var rest := models[1..];
      SelectedNameSpec(rest, selected);
      if exists i :: FirstWithId(rest, selected, i) && SelectedName(rest, selected) == rest[i].name {
        var i :| FirstWithId(rest, selected, i) && SelectedName(rest, selected) == rest[i].name;
        assert FirstWithId(models, selected, i + 1);
      } else {
        assert forall k :: 0 <= k < |models| ==> models[k].id != selected by {
          forall k | 0 < k < |models|
            ensures models[k].id != selected
          {
            assert models[k] == rest[k - 1];
          }
        }
      }
    }
  }
}
