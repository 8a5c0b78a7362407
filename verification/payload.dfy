/** `_payload` (planner/app.py): the user message sent to the model, built
    from the project context and the task text. `json.dumps(manifest,
    indent=2)` is outside the model and is passed in as `serialize`. */
module Payload {
  import opened Wrappers
  import opened Text
  import opened JsonValues

  /** `ContextModel`: the manifest, the file tree and the snippets by file
      name, in dict order. A snippet value may be `None`. The snippets are a
      sequence of pairs so that their order is kept; unlike a dict, such a
      sequence may repeat a name, which changes nothing here, since each
      pair is rendered on its own. */
  datatype Context = Context(
    manifest: map<string, Json>,
    tree: seq<string>,
    snippets: seq<(string, Option<string>)>)

  /** The number of characters of each snippet that are sent. */
  const SnippetLimit: nat := 2000

  /** The manifest used when the context gives none. */
  const DefaultManifest: map<string, Json> := map[
    "framework" := JStr("next"),
    "router" := JStr("app"),
    "typescript" := JBool(true),
    "tailwind" := JBool(true)]

  const ManifestHeader := "PROJECT_MANIFEST:\n"
  const TreeHeader := "FILE_TREE (truncated):\n"
  const SnippetsHeader := "SNIPPETS:\n"
  const TaskHeader := "\n\nTASK:\n"

  /** `ctx.manifest or {...}`: an empty manifest falls back to the default. */
  function EffectiveManifest(manifest: map<string, Json>): map<string, Json> {
    if |manifest| == 0 then DefaultManifest else manifest
  }

  /** `(v or '')[:2000]`: at most the first 2000 characters of the value,
      `None` and the empty string both giving the empty string. */
  function Truncate(v: Option<string>): (r: string)
    ensures |r| <= SnippetLimit
    ensures v.None? ==> r == ""
    ensures v.Some? ==> r <= v.value
    ensures v.Some? ==> |r| == if |v.value| <= SnippetLimit then |v.value| else SnippetLimit
  {
    var s := v.GetOr("");
    if |s| <= SnippetLimit then s else s[..SnippetLimit]
  }

  /** `f"{k}:\n{(v or '')[:2000]}"`: the name, a colon and a newline, then
      the truncated value. */
  function RenderSnippet(name: string, v: Option<string>): (r: string)
    ensures |name| + 2 <= |r| <= |name| + 2 + SnippetLimit
    ensures name + ":\n" <= r
    ensures v.Some? ==> |r| == |name| + 2 + (if |v.value| <= SnippetLimit then |v.value| else SnippetLimit)
    ensures v.Some? ==> r[|name| + 2..] <= v.value
    ensures v.None? ==> r == name + ":\n"
  {
    name + ":\n" + Truncate(v)
  }

  /** The rendered snippets, in dict order. */
  function RenderedSnippets(snippets: seq<(string, Option<string>)>): (r: seq<string>)
    ensures |r| == |snippets|
  {
    seq(|snippets|, i requires 0 <= i < |snippets| => RenderSnippet(snippets[i].0, snippets[i].1))
  }

  /** The room each snippet may take in the prompt: its name, the colon and
      newline, the longest value sent and the blank-line separator. */
  function SnippetBudget(snippets: seq<(string, Option<string>)>): nat {
    if |snippets| == 0 then 0
    else |snippets[0].0| + 2 + SnippetLimit + 2 + SnippetBudget(snippets[1..])
  }

  /** The payload up to and including the snippets header: the manifest
      section and the file-tree section. */
  function PayloadHead(ctx: Context, serialize: map<string, Json> -> string): string {
    ManifestHeader + serialize(EffectiveManifest(ctx.manifest)) + "\n"
    + TreeHeader + Join("\n", ctx.tree) + "\n"
    + SnippetsHeader
  }

  /** The rendered snippets separated by blank lines. */
  function SnippetsSection(snippets: seq<(string, Option<string>)>): string {
    Join("\n\n", RenderedSnippets(snippets))
  }

  /** planner/app.py:131-138: the prompt text. It is made of three
      consecutive, non-overlapping parts: the manifest and file-tree
      sections up to the snippets header, the rendered snippets, and the
      task header with the prompt. */
  function BuildPayload(
    prompt: string,
    ctx: Context,
    serialize: map<string, Json> -> string): (r: string)
    ensures |r| == |PayloadHead(ctx, serialize)| + |SnippetsSection(ctx.snippets)| + |TaskHeader + prompt|
    ensures r[..|PayloadHead(ctx, serialize)|] == PayloadHead(ctx, serialize)
    ensures r[|PayloadHead(ctx, serialize)|..|r| - |TaskHeader + prompt|] == SnippetsSection(ctx.snippets)
    ensures r[|r| - |TaskHeader + prompt|..] == TaskHeader + prompt
  {
    var head, body, tail := PayloadHead(ctx, serialize), SnippetsSection(ctx.snippets), TaskHeader + prompt;
    var r := head + body + tail;
    assert r[..|head|] == head;
    assert r[|head|..|r| - |tail|] == body;
    assert r[|r| - |tail|..] == tail;
    r
  }

  /** planner/app.py:132,134: the serialised manifest is the context's own
      when it has one and the fixed default otherwise. */
  lemma ManifestSection(prompt: string, ctx: Context, serialize: map<string, Json> -> string)
    ensures |ctx.manifest| == 0
            ==> ManifestHeader + serialize(DefaultManifest) + "\n" <= BuildPayload(prompt, ctx, serialize)
    ensures |ctx.manifest| > 0
            ==> ManifestHeader + serialize(ctx.manifest) + "\n" <= BuildPayload(prompt, ctx, serialize)
  {
  }

  /** planner/app.py:131-138: however long the snippet values, the whole
      payload is bounded by its head, the snippet names and the prompt. */
  lemma PayloadBounded(prompt: string, ctx: Context, serialize: map<string, Json> -> string)
    ensures |BuildPayload(prompt, ctx, serialize)|
            <= |PayloadHead(ctx, serialize)| + SnippetBudget(ctx.snippets) + |TaskHeader + prompt|
  {
    SnippetsSectionBounded(ctx.snippets);
  }

  /** planner/app.py:136: however long the snippet values, the snippets
      section is bounded by the names alone: every value is cut to 2000
      characters. */
  lemma {:induction false} SnippetsSectionBounded(snippets: seq<(string, Option<string>)>)
    ensures |SnippetsSection(snippets)| <= SnippetBudget(snippets)
    decreases |snippets|
  {
    var parts := RenderedSnippets(snippets);
    if |snippets| == 1 {
      assert Join("\n\n", parts) == parts[0];
    } else if |snippets| > 1 {
      SnippetsSectionBounded(snippets[1..]);
      assert RenderedSnippets(snippets[1..]) == parts[1..];
      assert Join("\n\n", parts) == parts[0] + "\n\n" + Join("\n\n", parts[1..]);
    }
  }
}
