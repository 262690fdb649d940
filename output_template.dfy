/** output/template.go: running the configured text/template over a value,
    or over each element of a slice. */
module OutputTemplate {
  import opened Wrappers
  import opened TextUtil
  import opened OutputConfig

  /** A bytes.Buffer. */
  class Buffer {
    var bytes: seq<byte>

    constructor ()
      ensures bytes == []
    {
      bytes := [];
    }

    method Write(b: seq<byte>)
      modifies this
      ensures bytes == old(bytes) + b
    {
      bytes := bytes + b;
    }

    method WriteByte(b: byte)
      modifies this
      ensures bytes == old(bytes) + [b]
    {
      bytes := bytes + [b];
    }
  }

  const EmptyTemplate := "template must not be empty"

  /** What one execution of the template writes for each element. */
  function ItemOutputs(lib: Library, template: string, elements: seq<Data>): (r: seq<seq<byte>>)
    ensures |r| == |elements|
  {
    seq(|elements|, i requires 0 <= i < |elements| => lib.executeTemplate(template, elements[i]).0)
  }

  /** The first element, from position `from` on, on which the template fails. */
  function FirstFailure(lib: Library, template: string, elements: seq<Data>, from: nat): (r: Option<nat>)
    requires from <= |elements|
    ensures r.Some? ==> from <= r.value < |elements| && lib.executeTemplate(template, elements[r.value]).1.Some?
    ensures r.Some? ==> forall j :: from <= j < r.value ==> lib.executeTemplate(template, elements[j]).1.None?
    ensures r.None? ==> forall j :: from <= j < |elements| ==> lib.executeTemplate(template, elements[j]).1.None?
    decreases |elements| - from
  {
    if from == |elements| then None
    else if lib.executeTemplate(template, elements[from]).1.Some? then Some(from)
    else FirstFailure(lib, template, elements, from + 1)
  }

  /** What the per-item loop writes and returns: the item outputs joined by
      single newlines up to and including the first failing item, whose error
      is returned. */
  function ItemsOutput(lib: Library, template: string, elements: seq<Data>): (seq<byte>, Option<string>)
  {
    var outs := ItemOutputs(lib, template, elements);
    match FirstFailure(lib, template, elements, 0)
    case None => (Join(outs, [Newline]), None)
    case Some(k) => (Join(outs[..k + 1], [Newline]), lib.executeTemplate(template, elements[k]).1)
  }

  /** What formatTemplate writes and returns: an empty template is refused
      before parsing, a template that does not parse gives the parse error,
      with TemplateItems and a slice the items are run one by one, and
      otherwise the template runs once on the value. */
  function TemplateOutput(lib: Library, v: Data, s: Settings): (seq<byte>, Option<string>)
  {
    if s.template == "" then ([], Some(EmptyTemplate))
    else if lib.parseTemplate(s.template).Some? then ([], lib.parseTemplate(s.template))
    else if s.templateItems && v.Slice? then ItemsOutput(lib, s.template, v.elements)
    else lib.executeTemplate(s.template, v)
  }

  /** One more item written: the separator owed to the previous item, then
      the item's own output. */
  lemma JoinStep(outs: seq<seq<byte>>, i: nat)
    requires i < |outs|
    ensures Join(outs[..i], [Newline]) + (if 0 < i then [Newline] else []) + outs[i] == Join(outs[..i + 1], [Newline])
  {
    assert outs[..i + 1] == outs[..i] + [outs[i]];
    JoinSnoc(outs[..i], outs[i], [Newline]);
  }

  /** The loop of formatTemplate over the elements of a slice. */
  method ExecuteItems(buf: Buffer, lib: Library, template: string, elements: seq<Data>) returns (err: Option<string>)
    modifies buf
    ensures buf.bytes == old(buf.bytes) + ItemsOutput(lib, template, elements).0
    ensures err == ItemsOutput(lib, template, elements).1
  {
    var n := |elements|;
    ghost var start := buf.bytes;
    ghost var outs := ItemOutputs(lib, template, elements);
    for i := 0 to n
      invariant forall j :: 0 <= j < i ==> lib.executeTemplate(template, elements[j]).1.None?
      invariant buf.bytes == start + Join(outs[..i], [Newline]) + (if 0 < i < n then [Newline] else [])
    {
      var r := lib.executeTemplate(template, elements[i]);
      buf.Write(r.0);
      JoinStep(outs, i);
      if r.1.Some? {
        assert FirstFailure(lib, template, elements, 0) == Some(i);
        return r.1;
      }
      if i + 1 < n {
        buf.WriteByte(Newline);
      }
    }
    assert outs[..n] == outs;
    return None;
  }

  /** formatTemplate(buf, v, config). */
  method FormatTemplate(buf: Buffer, lib: Library, v: Data, s: Settings) returns (err: Option<string>)
    modifies buf
    ensures buf.bytes == old(buf.bytes) + TemplateOutput(lib, v, s).0
    ensures err == TemplateOutput(lib, v, s).1
  {
    if s.template == "" {
      return Some(EmptyTemplate);
    }
    var parseErr := lib.parseTemplate(s.template);
    if parseErr.Some? {
      return parseErr;
    }
    if s.templateItems && v.Slice? {
      err := ExecuteItems(buf, lib, s.template, v.elements);
      return;
    }
    var r := lib.executeTemplate(s.template, v);
    buf.Write(r.0);
    err := r.1;
  }

  /** With TemplateItems and a slice on which every execution succeeds, the
      output is the item outputs in index order, each but the last followed
      by one newline. */
  lemma {:induction false} ItemsSeparated(lib: Library, v: Data, s: Settings)
    requires s.template != "" && lib.parseTemplate(s.template).None?
    requires s.templateItems && v.Slice? && |v.elements| >= 1
    requires forall j :: 0 <= j < |v.elements| ==> lib.executeTemplate(s.template, v.elements[j]).1.None?
    ensures var n := |v.elements|;
      var outs := ItemOutputs(lib, s.template, v.elements);
      TemplateOutput(lib, v, s) ==
        (if n == 1 then outs[0] else Join(outs[..n - 1], [Newline]) + [Newline] + outs[n - 1], None)
  {
    var n := |v.elements|;
    var outs := ItemOutputs(lib, s.template, v.elements);
    assert FirstFailure(lib, s.template, v.elements, 0).None?;
    assert TemplateOutput(lib, v, s) == (Join(outs, [Newline]), None);
    assert outs[..n - 1] + [outs[n - 1]] == outs;
    JoinSnoc(outs[..n - 1], outs[n - 1], [Newline]);
  }

  /** The separators of "foo", "bar", "baz" and "42" give "foo\nbar\nbaz\n42". */
  lemma ItemsExample()
    ensures var items: seq<seq<byte>> := [[102, 111, 111], [98, 97, 114], [98, 97, 122], [52, 50]];
      Join(items, [Newline]) == [102, 111, 111, 10, 98, 97, 114, 10, 98, 97, 122, 10, 52, 50]
  {
    var items: seq<seq<byte>> := [[102, 111, 111], [98, 97, 114], [98, 97, 122], [52, 50]];
    assert items[1..][1..][1..] == [[52, 50]];
    assert Join(items[1..][1..], [Newline]) == [98, 97, 122] + [Newline] + [52, 50];
    assert Join(items[1..], [Newline]) == [98, 97, 114] + [Newline] + [98, 97, 122, 10, 52, 50];
  }

  /** The first failing item ends the loop: its error is returned and no item
      after it is executed. */
  lemma FirstErrorStops(lib: Library, v: Data, s: Settings, k: nat)
    requires s.template != "" && lib.parseTemplate(s.template).None?
    requires s.templateItems && v.Slice? && k < |v.elements|
    requires lib.executeTemplate(s.template, v.elements[k]).1.Some?
    requires forall j :: 0 <= j < k ==> lib.executeTemplate(s.template, v.elements[j]).1.None?
    ensures TemplateOutput(lib, v, s) ==
      (Join(ItemOutputs(lib, s.template, v.elements)[..k + 1], [Newline]), lib.executeTemplate(s.template, v.elements[k]).1)
  {
    var f := FirstFailure(lib, s.template, v.elements, 0);
    assert f.Some? && f.value == k by {
      assert lib.executeTemplate(s.template, v.elements[k]).1.Some?;
    }
  }

  /** Without TemplateItems, or for a value that is not a slice, the template
      runs once on the whole value; an empty slice with TemplateItems writes
      nothing and succeeds. */
  lemma WholeValueOrItems(lib: Library, v: Data, s: Settings)
    requires s.template != "" && lib.parseTemplate(s.template).None?
    ensures !(s.templateItems && v.Slice?) ==> TemplateOutput(lib, v, s) == lib.executeTemplate(s.template, v)
    ensures s.templateItems && v == Slice([]) ==> TemplateOutput(lib, v, s) == ([], None)
  {
  }
}
