/**
  The combinator of one scope: an append-only, ordered list of content
  writers and the fixed URL its merged service worker is served from.
 */
module Combinator {

  /**
    A content writer: a callback that writes (not returns) one fragment of
    the service worker. What it writes when called is `output`.
   */
  datatype Writer = Writer(name: string, output: string)

  /** The text rendering echoes: `;` before each writer's output, in order. */
  function Render(writers: seq<Writer>): string {
    if writers == [] then ""
    else Render(writers[..|writers| - 1]) + ";" + writers[|writers| - 1].output
  }

  lemma RenderEmpty()
    ensures Render([]) == ""
  {
  }

  /** Rendering distributes over the concatenation of writer lists. */
  lemma {:induction false} RenderConcat(a: seq<Writer>, b: seq<Writer>)
    ensures Render(a + b) == Render(a) + Render(b)
    decreases |b|
  {
    if b == [] {
      assert a + b == a;
    } else {
      var b' := b[..|b| - 1];
      assert (a + b)[..|a + b| - 1] == a + b';
      RenderConcat(a, b');
    }
  }

  /** The front-first reading: the first writer's fragment comes first. */
  lemma RenderCons(w: Writer, ws: seq<Writer>)
    ensures Render([w] + ws) == ";" + w.output + Render(ws)
  {
    RenderConcat([w], ws);
    assert [w][..0] == [];
  }

  /** Each writer adds exactly its output and one separator. */
  lemma {:induction false} RenderLength(ws: seq<Writer>)
    ensures |Render(ws)| == |ws| + TotalOutput(ws)
  {
    if ws != [] {
      RenderLength(ws[..|ws| - 1]);
    }
  }

  function TotalOutput(ws: seq<Writer>): nat {
    if ws == [] then 0 else TotalOutput(ws[..|ws| - 1]) + |ws[|ws| - 1].output|
  }

  /** Two writers emitting `A` and `B` render as `;A;B`. */
  lemma RenderTwo(a: Writer, b: Writer)
    requires a.output == "A" && b.output == "B"
    ensures Render([a, b]) == ";A;B"
  {
    assert [a, b][..1] == [a];
    assert [a][..0] == [];
    assert Render([a]) == ";A";
  }

  class Combinator {
    const url: string
    var writers: seq<Writer>

    constructor (url: string)
      ensures this.url == url && writers == []
      ensures !HasContent()
    {
      this.url := url;
      writers := [];
    }

    /** `add_content`: append one writer at the end; no de-duplication. */
    method AddContent(w: Writer)
      modifies this
      ensures writers == old(writers) + [w]
      ensures HasContent()
    {
      writers := writers + [w];
    }

    /**
      `write_content`: for each writer in order echo `;` and call it. The
      text written is `out`; `calls` lists the writers called, in order.
     */
    method WriteContent() returns (out: string, calls: seq<Writer>)
      ensures out == Render(writers)
      ensures calls == writers
    {
      out, calls := "", [];
      var i := 0;
      while i < |writers|
        invariant 0 <= i <= |writers|
        invariant calls == writers[..i]
        invariant out == Render(writers[..i])
      {
        out := out + ";";
        calls := calls + [writers[i]];
        out := out + writers[i].output;
        assert writers[..i + 1][..i] == writers[..i];
        i := i + 1;
      }
      assert writers[..i] == writers;
    }

    /** `get_url`: the URL given at construction, which nothing changes afterwards. */
    function GetUrl(): (u: string)
      ensures u == url
    {
      url
    }

    /** `has_content`: at least one writer is registered. */
    predicate HasContent(): (b: bool)
      reads this
      ensures b <==> writers != []
    {
      |writers| != 0
    }
  }
}
