/** Content source maps and the annotate mode of `wrapData`: every leaf of a
    query result that the source map traces to a document field becomes
    `{ value, $$type$$: 'sanity', source }`, and the tree keeps its shape.
    The behaviour is the one pinned down by `wrapData`'s tests. */
module Csm {
  import opened Wrappers
  import opened Json

  /** One step of a walk through a result tree: an object key or an array index. */
  datatype Segment = Key(name: string) | Index(index: nat)

  type Path = seq<Segment>

  /** A document a query result draws from. `projectId` and `dataset` are set
      only for a document of another dataset. */
  datatype SourceDocument = SourceDocument(id: string, type_: string, projectId: Option<string>, dataset: Option<string>)

  /** What a result path maps to: a field of a source document (indices into
      the source map's `documents` and `paths`), or a value of unknown origin. */
  datatype Mapping = DocumentValue(document: nat, path: nat) | UnknownValue

  datatype SourceMap = SourceMap(documents: seq<SourceDocument>, paths: seq<Path>, mappings: map<Path, Mapping>)

  /** Every document and path index a mapping uses is in range. */
  predicate IndicesInRange(sm: SourceMap) {
    forall p :: p in sm.mappings && sm.mappings[p].DocumentValue? ==>
      sm.mappings[p].document < |sm.documents| && sm.mappings[p].path < |sm.paths|
  }

  /** The context that every wrapped leaf's `source` carries. */
  datatype Context = Context(baseUrl: string, dataset: string, projectId: string, tool: Option<string>, workspace: Option<string>)

  datatype WrapError = MappingIndexOutOfRange

  /** The node reached by following `p` from `j`, if any. */
  function At(j: Json, p: Path): Option<Json>
    decreases p
  {
    if p == [] then Some(j)
    else match p[0]
      case Index(i) => if j.Arr? && i < |j.items| then At(j.items[i], p[1..]) else None
      case Key(k) => if j.Obj? && k in j.fields then At(j.fields[k], p[1..]) else None
  }

  /** A field path as the Studio writes it: keys joined by dots, indices in brackets. */
  function StudioPath(p: Path): string {
    if p == [] then ""
    else
      var init := StudioPath(p[..|p| - 1]);
      match p[|p| - 1]
      case Key(name) => if |p| == 1 then name else init + "." + name
      case Index(i) => init + "[" + NatToString(i) + "]"
  }

  /** The context's fields; an absent `tool` or `workspace` is left out, as an
      `undefined` property is by a structural comparison. */
  function ContextFields(ctx: Context): map<string, Json> {
    var base := map["baseUrl" := Str(ctx.baseUrl), "dataset" := Str(ctx.dataset), "projectId" := Str(ctx.projectId)];
    var withTool := if ctx.tool.Some? then base["tool" := Str(ctx.tool.value)] else base;
    if ctx.workspace.Some? then withTool["workspace" := Str(ctx.workspace.value)] else withTool
  }

  /** `{ ...context, id, type, path }` */
  function SourceField(ctx: Context, doc: SourceDocument, path: Path): Json {
    Obj(ContextFields(ctx)["id" := Str(doc.id)]["type" := Str(doc.type_)]["path" := Str(StudioPath(path))])
  }

  /** `{ value, $$type$$: 'sanity', source }` */
  function WrappedLeaf(ctx: Context, doc: SourceDocument, path: Path, value: Json): Json {
    Obj(map["value" := value, "$$type$$" := Str("sanity"), "source" := SourceField(ctx, doc, path)])
  }

  /** Wraps the tree `node` found at path `at` of the result. */
  function Wrap(ctx: Context, sm: SourceMap, node: Json, at: Path): Json
    requires IndicesInRange(sm)
    decreases node
  {
    match node
    case Arr(items) => Arr(seq(|items|, i requires 0 <= i < |items| => Wrap(ctx, sm, items[i], at + [Index(i)])))
    case Obj(fields) => Obj(map k | k in fields :: Wrap(ctx, sm, fields[k], at + [Key(k)]))
    case _ =>
      if at in sm.mappings && sm.mappings[at].DocumentValue? then
        var m := sm.mappings[at];
        WrappedLeaf(ctx, sm.documents[m.document], sm.paths[m.path], node)
      else node
  }

  /** `wrapData(context, result, sourceMap)`; a source map whose indices are
      out of range is a data-integrity error and wraps nothing. */
  function WrapData(ctx: Context, result: Json, sourceMap: Option<SourceMap>): (r: Result<Json, WrapError>)
    ensures r.Failure? <==> sourceMap.Some? && !IndicesInRange(sourceMap.value)
    ensures sourceMap.None? ==> r == Success(result)
  {
    match sourceMap
    case None => Success(result)
    case Some(sm) => if IndicesInRange(sm) then Success(Wrap(ctx, sm, result, [])) else Failure(MappingIndexOutOfRange)
  }

  /** Wrapping commutes with navigation: the node at `p` of the wrapped tree is
      the node at `p` of the original, wrapped. */
  lemma {:induction false} WrapAt(ctx: Context, sm: SourceMap, node: Json, at: Path, p: Path)
    requires IndicesInRange(sm) && At(node, p).Some?
    ensures At(Wrap(ctx, sm, node, at), p) == Some(Wrap(ctx, sm, At(node, p).value, at + p))
    decreases p
  {
    if p == [] {
      assert at + p == at;
    } else {
      match p[0]
      case Index(i) =>
        WrapAt(ctx, sm, node.items[i], at + [Index(i)], p[1..]);
        assert at + [Index(i)] + p[1..] == at + p;
      case Key(k) =>
        WrapAt(ctx, sm, node.fields[k], at + [Key(k)], p[1..]);
        assert at + [Key(k)] + p[1..] == at + p;
    }
  }

  /** The fields of a wrapped leaf: the value, the `sanity` marker, and a
      `source` with the context, the document's id and type, and the path. */
  lemma WrappedLeafFields(ctx: Context, doc: SourceDocument, path: Path, v: Json)
    ensures var w := WrappedLeaf(ctx, doc, path, v);
      && Field(w, "value") == Some(v)
      && Field(w, "$$type$$") == Some(Str("sanity"))
      && Field(w, "source") == Some(SourceField(ctx, doc, path))
    ensures var source := SourceField(ctx, doc, path);
      && Field(source, "id") == Some(Str(doc.id))
      && Field(source, "type") == Some(Str(doc.type_))
      && Field(source, "path") == Some(Str(StudioPath(path)))
      && Field(source, "baseUrl") == Some(Str(ctx.baseUrl))
      && Field(source, "dataset") == Some(Str(ctx.dataset))
      && Field(source, "projectId") == Some(Str(ctx.projectId))
      && (ctx.tool.Some? ==> Field(source, "tool") == Some(Str(ctx.tool.value)))
      && (ctx.workspace.Some? ==> Field(source, "workspace") == Some(Str(ctx.workspace.value)))
  {
  }

  /** A leaf the source map traces to a document field becomes a wrapped leaf
      holding the original value, the `sanity` marker, the context, and the
      document's id and type and the field's dotted path. */
  lemma WrapMappedLeaf(ctx: Context, sm: SourceMap, result: Json, p: Path)
    requires IndicesInRange(sm)
    requires At(result, p).Some? && IsLeaf(At(result, p).value)
    requires p in sm.mappings && sm.mappings[p].DocumentValue?
    ensures WrapData(ctx, result, Some(sm)).Success?
    ensures var w := At(WrapData(ctx, result, Some(sm)).value, p);
      var doc := sm.documents[sm.mappings[p].document];
      && w.Some?
      && Field(w.value, "value") == At(result, p)
      && Field(w.value, "$$type$$") == Some(Str("sanity"))
      && Field(w.value, "source").Some?
      && var source := Field(w.value, "source").value;
      && Field(source, "id") == Some(Str(doc.id))
      && Field(source, "type") == Some(Str(doc.type_))
      && Field(source, "path") == Some(Str(StudioPath(sm.paths[sm.mappings[p].path])))
      && Field(source, "baseUrl") == Some(Str(ctx.baseUrl))
      && Field(source, "dataset") == Some(Str(ctx.dataset))
      && Field(source, "projectId") == Some(Str(ctx.projectId))
      && (ctx.tool.Some? ==> Field(source, "tool") == Some(Str(ctx.tool.value)))
      && (ctx.workspace.Some? ==> Field(source, "workspace") == Some(Str(ctx.workspace.value)))
  {
    WrapAt(ctx, sm, result, [], p);
    assert [] + p == p;
    var m := sm.mappings[p];
    var doc := sm.documents[m.document];
    var leaf := At(result, p).value;
    assert Wrap(ctx, sm, leaf, p) == WrappedLeaf(ctx, doc, sm.paths[m.path], leaf);
    WrappedLeafFields(ctx, doc, sm.paths[m.path], leaf);
  }

  /** A leaf with no document mapping keeps its plain value. */
  lemma WrapUnmappedLeaf(ctx: Context, sm: SourceMap, result: Json, p: Path)
    requires IndicesInRange(sm)
    requires At(result, p).Some? && IsLeaf(At(result, p).value)
    requires p !in sm.mappings || sm.mappings[p].UnknownValue?
    ensures WrapData(ctx, result, Some(sm)) == Success(Wrap(ctx, sm, result, []))
    ensures At(Wrap(ctx, sm, result, []), p) == At(result, p)
  {
    WrapAt(ctx, sm, result, [], p);
    assert [] + p == p;
  }

  /** Arrays stay arrays of the same length and objects stay objects with the same keys. */
  lemma WrapKeepsShape(ctx: Context, sm: SourceMap, result: Json, p: Path)
    requires IndicesInRange(sm) && At(result, p).Some? && !IsLeaf(At(result, p).value)
    ensures var w := At(Wrap(ctx, sm, result, []), p);
      && w.Some?
      && w.value.Arr? == At(result, p).value.Arr?
      && (w.value.Arr? ==> |w.value.items| == |At(result, p).value.items|)
      && w.value.Obj? == At(result, p).value.Obj?
      && (w.value.Obj? ==> w.value.fields.Keys == At(result, p).value.fields.Keys)
  {
    WrapAt(ctx, sm, result, [], p);
  }

  /** Every path of the original tree is still a path of the wrapped tree. */
  lemma {:induction false} WrapKeepsPaths(ctx: Context, sm: SourceMap, result: Json, p: Path)
    requires IndicesInRange(sm) && At(result, p).Some?
    ensures At(Wrap(ctx, sm, result, []), p).Some?
  {
    WrapAt(ctx, sm, result, [], p);
  }

  // The two cases the tests check, on results of the same form as their fixtures.

  function TestContext(): Context {
    Context("http://localhost:3333", "test", "test", None, None)
  }

  /** With no `tool` or `workspace`, a wrapped leaf is exactly this object. */
  lemma WrappedLeafWithoutToolOrWorkspace(ctx: Context, doc: SourceDocument, path: Path, v: Json)
    requires ctx.tool.None? && ctx.workspace.None?
    ensures WrappedLeaf(ctx, doc, path, v) == Obj(map[
      "value" := v, "$$type$$" := Str("sanity"),
      "source" := Obj(map["baseUrl" := Str(ctx.baseUrl), "dataset" := Str(ctx.dataset), "projectId" := Str(ctx.projectId),
                          "id" := Str(doc.id), "type" := Str(doc.type_), "path" := Str(StudioPath(path))])])
  {
  }

  /** An array of documents: element 0 keeps its `_id` as a plain value and its
      `title` becomes a wrapped leaf with path `title`. */
  lemma WrapArrayOfDocuments()
    ensures var id := "0e6fa235-3bd5-41cc-9f25-53dc0a5ff7d2";
      var title := Str("Nike Pegasus 39 Shield");
      var result := Arr([Obj(map["_id" := Str(id), "title" := title])]);
      var sm := SourceMap([SourceDocument(id, "shoe", None, None)], [[Key("title")]],
                          map[[Index(0), Key("title")] := DocumentValue(0, 0)]);
      var wrapped := WrapData(TestContext(), result, Some(sm));
      && wrapped.Success?
      && At(wrapped.value, [Index(0)]) == Some(Obj(map[
           "_id" := Str(id),
           "title" := Obj(map[
             "value" := title,
             "$$type$$" := Str("sanity"),
             "source" := Obj(map[
               "baseUrl" := Str("http://localhost:3333"), "dataset" := Str("test"), "projectId" := Str("test"),
               "id" := Str(id), "type" := Str("shoe"), "path" := Str("title")])])]))
  {
    var id := "0e6fa235-3bd5-41cc-9f25-53dc0a5ff7d2";
    var title := Str("Nike Pegasus 39 Shield");
    var doc := Obj(map["_id" := Str(id), "title" := title]);
    var result := Arr([doc]);
    var sm := SourceMap([SourceDocument(id, "shoe", None, None)], [[Key("title")]],
                        map[[Index(0), Key("title")] := DocumentValue(0, 0)]);
    var ctx := TestContext();
    WrapAt(ctx, sm, result, [], [Index(0)]);
    assert [] + [Index(0)] == [Index(0)];
    var idPath := [Index(0)] + [Key("_id")];
    var titlePath := [Index(0)] + [Key("title")];
    assert idPath[1] == Key("_id") && idPath !in sm.mappings;
    assert titlePath == [Index(0), Key("title")];
    assert StudioPath([Key("title")]) == "title";
    WrappedLeafWithoutToolOrWorkspace(ctx, sm.documents[0], [Key("title")], title);
    var w := Wrap(ctx, sm, doc, [Index(0)]);
    assert w.fields == map["_id" := Str(id), "title" := WrappedLeaf(ctx, sm.documents[0], [Key("title")], title)];
  }

  lemma SeoOgTitlePath()
    ensures StudioPath([Key("seo"), Key("og"), Key("title")]) == "seo.og.title"
  {
    var path := [Key("seo"), Key("og"), Key("title")];
    assert path[..2] == [Key("seo"), Key("og")] && path[..2][..1] == [Key("seo")];
  }

  /** A deep target: `seo.og.title` becomes a wrapped leaf whose path is the
      dotted field path. */
  lemma WrapDeepTarget()
    ensures var id := "80ddcd8a-a89f-4163-8f8d-b941787da6e0";
      var title := Str("Build accessible React apps faster with Sanity UI");
      var path := [Key("seo"), Key("og"), Key("title")];
      var result := Obj(map["seo" := Obj(map["og" := Obj(map["title" := title])])]);
      var sm := SourceMap([SourceDocument(id, "screen", None, None)], [path], map[path := DocumentValue(0, 0)]);
      var wrapped := WrapData(TestContext(), result, Some(sm));
      && wrapped.Success?
      && At(wrapped.value, path) == Some(Obj(map[
           "value" := title,
           "$$type$$" := Str("sanity"),
           "source" := Obj(map[
             "baseUrl" := Str("http://localhost:3333"), "dataset" := Str("test"), "projectId" := Str("test"),
             "id" := Str(id), "type" := Str("screen"), "path" := Str("seo.og.title")])]))
  {
    var id := "80ddcd8a-a89f-4163-8f8d-b941787da6e0";
    var title := Str("Build accessible React apps faster with Sanity UI");
    var path := [Key("seo"), Key("og"), Key("title")];
    var result := Obj(map["seo" := Obj(map["og" := Obj(map["title" := title])])]);
    var sm := SourceMap([SourceDocument(id, "screen", None, None)], [path], map[path := DocumentValue(0, 0)]);
    var ctx := TestContext();
    assert At(result, path) == Some(title) by {
      assert path[1..] == [Key("og"), Key("title")] && path[1..][1..] == [Key("title")];
    }
    WrapAt(ctx, sm, result, [], path);
    assert [] + path == path;
    var w := WrapData(ctx, result, Some(sm)).value;
    assert At(w, path) == Some(Wrap(ctx, sm, title, path));
    assert Wrap(ctx, sm, title, path) == WrappedLeaf(ctx, sm.documents[0], path, title);
    SeoOgTitlePath();
    WrappedLeafWithoutToolOrWorkspace(ctx, sm.documents[0], path, title);
  }
}
