/**
 * The tool listing of the stroke classification package: every tool of the
 * package, with a `*` after the ones that have a pre-trained model.
 *
 * The tool list and the values of the model registry are inputs; each
 * registry entry is a map from field names to strings.
 */
module StrokeClassification {
  import opened Wrappers

  /** Every registry entry names its class. */
  predicate AllNamed(entries: seq<map<string, string>>)
  {
    forall i :: 0 <= i < |entries| ==> "class_name" in entries[i]
  }

  /** `[x["class_name"] for x in list(models_dict.values())]`; an entry without a class name raises. */
  function PreTrainedModels(entries: seq<map<string, string>>): (r: Option<seq<string>>)
    ensures r.Some? <==> AllNamed(entries)
    ensures r.Some? ==> |r.value| == |entries|
    ensures r.Some? ==> forall i :: 0 <= i < |entries| ==> r.value[i] == entries[i]["class_name"]
  {
    if AllNamed(entries) then
      Some(seq(|entries|, i requires 0 <= i < |entries| && AllNamed(entries) => entries[i]["class_name"]))
    else None
  }

  /** `tool` is the class name of some registry entry. */
  predicate HasPreTrainedModel(tool: string, entries: seq<map<string, string>>)
  {
    exists i :: 0 <= i < |entries| && "class_name" in entries[i] && entries[i]["class_name"] == tool
  }

  /** `list_tools`: the tools in order, a pre-trained one followed by `*`, the others unchanged. */
  function ListTools(tools: seq<string>, entries: seq<map<string, string>>): (r: Option<seq<string>>)
    ensures r.Some? <==> AllNamed(entries)
    ensures r.Some? ==> |r.value| == |tools|
    ensures r.Some? ==> forall i :: 0 <= i < |tools| ==>
      r.value[i] == if HasPreTrainedModel(tools[i], entries) then tools[i] + "*" else tools[i]
  {
    match PreTrainedModels(entries)
    case None => None
    case Some(names) =>
      var r := seq(|tools|, i requires 0 <= i < |tools| => if tools[i] in names then tools[i] + "*" else tools[i]);
      assert forall i :: 0 <= i < |tools| ==> (tools[i] in names <==> HasPreTrainedModel(tools[i], entries)) by {
        forall i | 0 <= i < |tools| ensures tools[i] in names <==> HasPreTrainedModel(tools[i], entries) {
          if tools[i] in names {
            var j :| 0 <= j < |names| && names[j] == tools[i];
            assert "class_name" in entries[j] && entries[j]["class_name"] == tools[i];
          }
        }
      }
      Some(r)
  }

  /** The class names of the registry, as a set. */
  function ClassNames(entries: seq<map<string, string>>): set<string>
  {
    set i | 0 <= i < |entries| && "class_name" in entries[i] :: entries[i]["class_name"]
  }

  lemma PreTrainedIsClassName(tool: string, entries: seq<map<string, string>>)
    ensures HasPreTrainedModel(tool, entries) <==> tool in ClassNames(entries)
  {
    if HasPreTrainedModel(tool, entries) {
      var j :| 0 <= j < |entries| && "class_name" in entries[j] && entries[j]["class_name"] == tool;
      assert entries[j]["class_name"] in ClassNames(entries);
    }
  }

  /** Only the set of class names matters: the order of the registry and repeated class names do not change the listing. */
  lemma ListToolsDependsOnNames(tools: seq<string>, e1: seq<map<string, string>>, e2: seq<map<string, string>>)
    requires AllNamed(e1) && AllNamed(e2)
    requires ClassNames(e1) == ClassNames(e2)
    ensures ListTools(tools, e1) == ListTools(tools, e2)
  {
    var r1, r2 := ListTools(tools, e1).value, ListTools(tools, e2).value;
    forall i | 0 <= i < |tools| ensures r1[i] == r2[i] {
      PreTrainedIsClassName(tools[i], e1);
      PreTrainedIsClassName(tools[i], e2);
    }
    assert r1 == r2;
  }

  /** Listing never adds, drops or reorders tools: removing the marks gives back the tool list. */
  lemma ListToolsUnmark(tools: seq<string>, entries: seq<map<string, string>>, i: nat)
    requires AllNamed(entries) && i < |tools|
    ensures var out := ListTools(tools, entries).value[i];
      && out[..|tools[i]|] == tools[i]
      && (|out| == |tools[i]| + 1 <==> HasPreTrainedModel(tools[i], entries))
  {
  }
}
