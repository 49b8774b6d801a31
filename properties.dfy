/**
 * The `KEY=VALUE` property-file format that `Render` writes: one entry per
 * line, the key, an `=`, the value and a newline.
 */
module Properties {
  import opened Text

  datatype Entry = Entry(key: string, value: string)

  /** An entry that reads back unchanged: no `=` or newline in the key, no newline in the value. */
  predicate WellFormed(e: Entry) {
    '=' !in e.key && '\n' !in e.key && '\n' !in e.value
  }

  function Line(e: Entry): string {
    e.key + "=" + e.value + "\n"
  }

  /** The file text for a list of entries, in order. */
  function Render(es: seq<Entry>): string {
    if es == [] then "" else Line(es[0]) + Render(es[1..])
  }

  /** Rendering a concatenation renders the parts one after the other. */
  lemma {:induction false} RenderAppend(a: seq<Entry>, b: seq<Entry>)
    ensures Render(a + b) == Render(a) + Render(b)
  {
    if a == [] {
      assert a + b == b;
    } else {
      assert (a + b)[0] == a[0];
      assert (a + b)[1..] == a[1..] + b;
      RenderAppend(a[1..], b);
    }
  }

  /** Appending one entry appends its line. */
  lemma RenderSnoc(es: seq<Entry>, e: Entry)
    ensures Render(es + [e]) == Render(es) + Line(e)
  {
    RenderAppend(es, [e]);
    assert Render([e]) == Line(e) + Render([]);
  }

  /** One line read back: the text before the first `=` and the text after it. */
  function ParseLine(line: string): Entry {
    var i := FirstIndex(line, '=');
    Entry(line[..i], if i < |line| then line[i + 1..] else "")
  }

  /** A reader that inverts `Render`: newline-separated lines, each split at its first `=`. */
  function Parse(s: string): seq<Entry>
    decreases |s|
  {
    if s == [] then []
    else
      var i := FirstIndex(s, '\n');
      [ParseLine(s[..i])] + (if i < |s| then Parse(s[i + 1..]) else [])
  }

  /** A well-formed entry's line reads back as that entry, and reading resumes right after it. */
  lemma LineReadsBack(e: Entry, rest: string)
    requires WellFormed(e)
    ensures FirstIndex(Line(e) + rest, '\n') == |e.key + "=" + e.value|
    ensures ParseLine((Line(e) + rest)[..|e.key + "=" + e.value|]) == e
    ensures (Line(e) + rest)[|e.key + "=" + e.value| + 1..] == rest
  {
    var body := e.key + "=" + e.value;
    assert Line(e) + rest == body + ['\n'] + rest;
    assert '\n' !in body by {
      forall k | 0 <= k < |body| ensures body[k] != '\n' {
        if k < |e.key| {
          assert body[k] == e.key[k];
        } else if k > |e.key| {
          assert body[k] == e.value[k - |e.key| - 1];
        }
      }
    }
    FirstIndexAfter(body, '\n', rest);
    assert (Line(e) + rest)[..|body|] == body;
    assert body == e.key + ['='] + e.value;
    FirstIndexAfter(e.key, '=', e.value);
    assert body[..|e.key|] == e.key;
    assert body[|e.key| + 1..] == e.value;
  }

  /** Round trip: reading a rendered file gives back exactly its entries, in order. */
  lemma {:induction false} ParseRender(es: seq<Entry>)
    requires forall i :: 0 <= i < |es| ==> WellFormed(es[i])
    ensures Parse(Render(es)) == es
  {
    if es != [] {
      var e := es[0];
      var rest := Render(es[1..]);
      LineReadsBack(e, rest);
      ParseRender(es[1..]);
    }
  }

  /** A rendered file is empty or ends with a newline: every line is newline-terminated. */
  lemma {:induction false} RenderEndsWithNewline(es: seq<Entry>)
    ensures es == [] <==> Render(es) == ""
    ensures es != [] ==> Render(es)[|Render(es)| - 1] == '\n'
  {
    if es != [] {
      RenderEndsWithNewline(es[1..]);
      assert Render(es) == Line(es[0]) + Render(es[1..]);
    }
  }
}
