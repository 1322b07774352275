/**
 * The EUPS exception family (python/eups/exceptions.py).
 *
 * Every exception is an `EupsException` carrying a message; the three
 * specialised kinds also store the fields they were constructed with and,
 * when no explicit message is given, build a default one from whichever of
 * those fields are present.  A default message is specified here as a
 * template: a fixed list of slots, each standing for one part of the message,
 * whose text is present exactly when the argument it belongs to is.
 */
module Exceptions {
  import opened Optional
  import opened Sequences

  /** The parts a default message can be made of. */
  datatype Part = Lead | Name | Version | Flavors | Flavor | Verdict | Stack | Tablefile

  /** One place in a template: the part it stands for, and its text if its argument is present. */
  datatype Slot = Slot(part: Part, text: Option<string>)

  /** One piece of a message as rendered. */
  datatype Segment = Segment(part: Part, text: string)

  /** The segments of a template: one per slot whose text is present, in template order. */
  function Fill(slots: seq<Slot>): seq<Segment>
  {
    if slots == [] then []
    else (if slots[0].text.Some? then [Segment(slots[0].part, slots[0].text.value)] else [])
         + Fill(slots[1..])
  }

  /** The text of a sequence of segments. */
  function Render(segs: seq<Segment>): string
  {
    if segs == [] then "" else segs[0].text + Render(segs[1..])
  }

  function PartsOf(segs: seq<Segment>): seq<Part>
  {
    if segs == [] then [] else [segs[0].part] + PartsOf(segs[1..])
  }

  function SlotParts(slots: seq<Slot>): seq<Part>
  {
    if slots == [] then [] else [slots[0].part] + SlotParts(slots[1..])
  }

  /** `a` can be obtained from `b` by deleting elements. */
  predicate Subsequence(a: seq<Part>, b: seq<Part>)
    decreases |b|
  {
    if b == [] then a == []
    else (a != [] && a[0] == b[0] && Subsequence(a[1..], b[1..])) || Subsequence(a, b[1..])
  }

  /** `prefix + value` when the value is present (Python's `"...%s" % str(v)` under `if v is not None`). */
  function Wrap(prefix: string, value: Option<string>): Option<string>
  {
    if value.Some? then Some(prefix + value.value) else None
  }

  /** `" (" + value + ")"` when the value is present. */
  function Parenthesised(value: Option<string>): Option<string>
  {
    if value.Some? then Some(" (" + value.value + ")") else None
  }

  /** Python's `str` of an optional string. */
  function Str(value: Option<string>): string
  {
    if value.Some? then value.value else "None"
  }

  // ---------------------------------------------------------------------
  // Facts about templates in general

  lemma {:induction false} RenderAppend(a: seq<Segment>, b: seq<Segment>)
    ensures Render(a + b) == Render(a) + Render(b)
  {
    if a == [] {
      assert a + b == b;
    } else {
      assert (a + b)[1..] == a[1..] + b;
      RenderAppend(a[1..], b);
    }
  }

  lemma {:induction false} PartsOfAppend(a: seq<Segment>, b: seq<Segment>)
    ensures PartsOf(a + b) == PartsOf(a) + PartsOf(b)
  {
    if a == [] {
      assert a + b == b;
    } else {
      assert (a + b)[1..] == a[1..] + b;
      PartsOfAppend(a[1..], b);
    }
  }

  lemma {:induction false} FillAppend(a: seq<Slot>, b: seq<Slot>)
    ensures Fill(a + b) == Fill(a) + Fill(b)
  {
    if a == [] {
      assert a + b == b;
    } else {
      var head := if a[0].text.Some? then [Segment(a[0].part, a[0].text.value)] else [];
      assert (a + b)[0] == a[0];
      assert (a + b)[1..] == a[1..] + b;
      assert Fill(a + b) == head + Fill(a[1..] + b);
      FillAppend(a[1..], b);
      AppendAssociates(head, Fill(a[1..]), Fill(b));
    }
  }

  /** The parts of a filled template keep the template's order. */
  lemma {:induction false} FillKeepsOrder(slots: seq<Slot>)
    ensures Subsequence(PartsOf(Fill(slots)), SlotParts(slots))
  {
    if slots != [] {
      var rest := Fill(slots[1..]);
      FillKeepsOrder(slots[1..]);
      var ps := SlotParts(slots);
      assert ps[1..] == SlotParts(slots[1..]);
      if slots[0].text.Some? {
        var seg := Segment(slots[0].part, slots[0].text.value);
        assert Fill(slots) == [seg] + rest;
        PartsOfAppend([seg], rest);
        assert PartsOf(Fill(slots))[1..] == PartsOf(rest);
      } else {
        assert Fill(slots) == rest;
      }
    }
  }

  /** A part shows in a filled template exactly when some slot for it has text. */
  lemma {:induction false} FillPresence(slots: seq<Slot>, p: Part)
    ensures p in PartsOf(Fill(slots)) <==> exists i :: 0 <= i < |slots| && slots[i].part == p && slots[i].text.Some?
  {
    if slots == [] {
    } else {
      var rest := Fill(slots[1..]);
      FillPresence(slots[1..], p);
      var head := if slots[0].text.Some? then [Segment(slots[0].part, slots[0].text.value)] else [];
      assert Fill(slots) == head + rest;
      PartsOfAppend(head, rest);
      assert forall i :: 0 < i < |slots| ==> slots[i] == slots[1..][i - 1];
      if exists i :: 0 < i < |slots| && slots[i].part == p && slots[i].text.Some? {
        var i :| 0 < i < |slots| && slots[i].part == p && slots[i].text.Some?;
        assert slots[1..][i - 1] == slots[i];
      }
    }
  }

  // ---------------------------------------------------------------------
  // The three default messages

  /** Python truthiness of the `flavors` argument. */
  datatype FlavorsArg = NoFlavors | OneFlavor(flavor: string) | FlavorList(flavors: seq<Option<string>>)

  predicate FlavorsGiven(f: FlavorsArg)
  {
    match f
    case NoFlavors => false
    case OneFlavor(s) => s != ""
    case FlavorList(fs) => fs != []
  }

  /** Python's `repr` of a list element (quotes are not escaped). */
  function ElementRepr(e: Option<string>): string
  {
    if e.Some? then "'" + e.value + "'" else "None"
  }

  function ElementsRepr(fs: seq<Option<string>>): string
  {
    if fs == [] then ""
    else if |fs| == 1 then ElementRepr(fs[0])
    else ElementRepr(fs[0]) + ", " + ElementsRepr(fs[1..])
  }

  /** Python's `str(flavors)`. */
  function FlavorsText(f: FlavorsArg): string
  {
    match f
    case NoFlavors => "None"
    case OneFlavor(s) => s
    case FlavorList(fs) => "[" + ElementsRepr(fs) + "]"
  }

  /** The `flavors` attribute: a list argument is kept, anything else becomes a one-element list. */
  function StoredFlavors(f: FlavorsArg): (r: seq<Option<string>>)
    ensures f.FlavorList? ==> r == f.flavors
    ensures !f.FlavorList? ==> |r| == 1
    ensures f.NoFlavors? ==> r == [None]
    ensures f.OneFlavor? ==> r[0] == Some(f.flavor)
  {
    match f
    case NoFlavors => [None]
    case OneFlavor(s) => [Some(s)]
    case FlavorList(fs) => fs
  }

  function NotFoundTemplate(name: string, version: Option<string>, flavors: FlavorsArg, stack: Option<string>): seq<Slot>
  {
    [ Slot(Name, Some("Product " + name)),
      Slot(Version, Wrap(" ", version)),
      Slot(Flavors, if FlavorsGiven(flavors) then Some(" for " + FlavorsText(flavors)) else None),
      Slot(Verdict, Some(" not found")),
      Slot(Stack, Wrap(" in ", stack)) ]
  }

  function UnderSpecifiedTemplate(name: Option<string>, version: Option<string>, flavor: Option<string>): seq<Slot>
  {
    [ Slot(Name, Some("Under-specified product: " + Str(name))),
      Slot(Version, Wrap(" ver: ", version)),
      Slot(Flavor, Wrap(" flavor: ", flavor)) ]
  }

  function TablefileTemplate(tablefile: Option<string>, name: Option<string>, version: Option<string>, flavor: Option<string>): seq<Slot>
  {
    [ Slot(Lead, Some("Table file not found")),
      Slot(Name, Wrap(" for ", name)),
      Slot(Version, Wrap(" ", version)),
      Slot(Flavor, Parenthesised(flavor)),
      Slot(Tablefile, Wrap(": ", tablefile)) ]
  }

  /** The text a slot contributes: its own text, or nothing. */
  function SlotText(s: Slot): string
  {
    if s.text.Some? then s.text.value else ""
  }

  /** Optional part `p` as a sequence: present iff `given`. */
  function IfGiven(given: bool, p: Part): seq<Part>
  {
    if given then [p] else []
  }

  lemma InConcat(p: Part, a: seq<Part>, b: seq<Part>)
    ensures p in a + b <==> p in a || p in b
  {
  }

  lemma InFive(p: Part, a: seq<Part>, b: seq<Part>, c: seq<Part>, d: seq<Part>, e: seq<Part>)
    ensures p in a + (b + (c + (d + e))) <==> p in a || p in b || p in c || p in d || p in e
  {
    InConcat(p, a, b + (c + (d + e)));
    InConcat(p, b, c + (d + e));
    InConcat(p, c, d + e);
    InConcat(p, d, e);
  }

  lemma InThree(p: Part, a: seq<Part>, b: seq<Part>, c: seq<Part>)
    ensures p in a + (b + c) <==> p in a || p in b || p in c
  {
    InConcat(p, a, b + c);
    InConcat(p, b, c);
  }

  lemma OneSlot(s: Slot)
    ensures Render(Fill([s])) == SlotText(s)
    ensures PartsOf(Fill([s])) == IfGiven(s.text.Some?, s.part)
  {
    assert [s][1..] == [];
    if s.text.Some? {
      var seg := Segment(s.part, s.text.value);
      assert Fill([s]) == [seg];
      assert [seg][1..] == [];
    } else {
      assert Fill([s]) == [];
    }
  }

  /** Rendering and the parts of a five-slot template, slot by slot. */
  lemma FiveSlots(a: Slot, b: Slot, c: Slot, d: Slot, e: Slot)
    ensures Render(Fill([a, b, c, d, e])) == SlotText(a) + (SlotText(b) + (SlotText(c) + (SlotText(d) + SlotText(e))))
    ensures PartsOf(Fill([a, b, c, d, e]))
      == IfGiven(a.text.Some?, a.part) + (IfGiven(b.text.Some?, b.part) + (IfGiven(c.text.Some?, c.part)
         + (IfGiven(d.text.Some?, d.part) + IfGiven(e.text.Some?, e.part))))
    ensures SlotParts([a, b, c, d, e]) == [a.part, b.part, c.part, d.part, e.part]
  {
    var fa, fb, fc, fd, fe := Fill([a]), Fill([b]), Fill([c]), Fill([d]), Fill([e]);
    FillFive(a, b, c, d, e);
    OneSlot(a); OneSlot(b); OneSlot(c); OneSlot(d); OneSlot(e);
    RenderAppend(fd, fe);
    RenderAppend(fc, fd + fe);
    RenderAppend(fb, fc + (fd + fe));
    RenderAppend(fa, fb + (fc + (fd + fe)));
    PartsOfAppend(fd, fe);
    PartsOfAppend(fc, fd + fe);
    PartsOfAppend(fb, fc + (fd + fe));
    PartsOfAppend(fa, fb + (fc + (fd + fe)));
    SlotPartsFive(a, b, c, d, e);
  }

  lemma FillFive(a: Slot, b: Slot, c: Slot, d: Slot, e: Slot)
    ensures Fill([a, b, c, d, e]) == Fill([a]) + (Fill([b]) + (Fill([c]) + (Fill([d]) + Fill([e]))))
  {
    assert [a, b, c, d, e] == [a] + ([b] + ([c] + ([d] + [e])));
    FillAppend([d], [e]);
    FillAppend([c], [d] + [e]);
    FillAppend([b], [c] + ([d] + [e]));
    FillAppend([a], [b] + ([c] + ([d] + [e])));
  }

  lemma SlotPartsFive(a: Slot, b: Slot, c: Slot, d: Slot, e: Slot)
    ensures SlotParts([a, b, c, d, e]) == [a.part, b.part, c.part, d.part, e.part]
  {
    assert [a, b, c, d, e][1..] == [b, c, d, e];
    assert [b, c, d, e][1..] == [c, d, e];
    assert [c, d, e][1..] == [d, e];
    assert [d, e][1..] == [e];
    assert [e][1..] == [];
    assert SlotParts([e]) == [e.part];
    assert SlotParts([d, e]) == [d.part, e.part];
    assert SlotParts([c, d, e]) == [c.part, d.part, e.part];
    assert SlotParts([b, c, d, e]) == [b.part, c.part, d.part, e.part];
  }

  lemma ThreeSlots(a: Slot, b: Slot, c: Slot)
    ensures Render(Fill([a, b, c])) == SlotText(a) + (SlotText(b) + SlotText(c))
    ensures PartsOf(Fill([a, b, c]))
      == IfGiven(a.text.Some?, a.part) + (IfGiven(b.text.Some?, b.part) + IfGiven(c.text.Some?, c.part))
    ensures SlotParts([a, b, c]) == [a.part, b.part, c.part]
  {
    var fa, fb, fc := Fill([a]), Fill([b]), Fill([c]);
    assert [a, b, c] == [a] + ([b] + [c]);
    FillAppend([b], [c]);
    FillAppend([a], [b] + [c]);
    assert Fill([a, b, c]) == fa + (fb + fc);
    OneSlot(a); OneSlot(b); OneSlot(c);
    RenderAppend(fb, fc);
    RenderAppend(fa, fb + fc);
    PartsOfAppend(fb, fc);
    PartsOfAppend(fa, fb + fc);
    assert [a, b, c][1..] == [b, c];
    assert [b, c][1..] == [c];
    assert [c][1..] == [];
    assert SlotParts([c]) == [c.part];
    assert SlotParts([b, c]) == [b.part, c.part];
  }

  /**
   * The default ProductNotFound message names the product, then the version
   * iff one is given, the flavors iff they are truthy, then "not found", then
   * the stack iff one is given, in exactly that order.
   */
  lemma NotFoundLayout(name: string, version: Option<string>, flavors: FlavorsArg, stack: Option<string>)
    ensures PartsOf(Fill(NotFoundTemplate(name, version, flavors, stack)))
         == [Name] + (IfGiven(version.Some?, Version) + (IfGiven(FlavorsGiven(flavors), Flavors)
            + ([Verdict] + IfGiven(stack.Some?, Stack))))
    ensures Subsequence(PartsOf(Fill(NotFoundTemplate(name, version, flavors, stack))), [Name, Version, Flavors, Verdict, Stack])
  {
    FiveSlots(Slot(Name, Some("Product " + name)),
              Slot(Version, Wrap(" ", version)),
              Slot(Flavors, if FlavorsGiven(flavors) then Some(" for " + FlavorsText(flavors)) else None),
              Slot(Verdict, Some(" not found")),
              Slot(Stack, Wrap(" in ", stack)));
    FillKeepsOrder(NotFoundTemplate(name, version, flavors, stack));
  }

  /**
   * Each optional slot of the ProductNotFound template contributes a segment exactly
   * when its argument is given.  This is a fact about the parts the template
   * labels its segments with; the text they render to is stated by `NotFoundText`.
   */
  lemma NotFoundPresence(name: string, version: Option<string>, flavors: FlavorsArg, stack: Option<string>)
    ensures Version in PartsOf(Fill(NotFoundTemplate(name, version, flavors, stack))) <==> version.Some?
    ensures Flavors in PartsOf(Fill(NotFoundTemplate(name, version, flavors, stack))) <==> FlavorsGiven(flavors)
    ensures Stack in PartsOf(Fill(NotFoundTemplate(name, version, flavors, stack))) <==> stack.Some?
  {
    NotFoundLayout(name, version, flavors, stack);
    var v, f, st := IfGiven(version.Some?, Version), IfGiven(FlavorsGiven(flavors), Flavors), IfGiven(stack.Some?, Stack);
    InFive(Version, [Name], v, f, [Verdict], st);
    InFive(Flavors, [Name], v, f, [Verdict], st);
    InFive(Stack, [Name], v, f, [Verdict], st);
  }

  /** The default ProductNotFound message, written out. */
  lemma NotFoundText(name: string, version: Option<string>, flavors: FlavorsArg, stack: Option<string>)
    ensures Render(Fill(NotFoundTemplate(name, version, flavors, stack)))
      == "Product " + name
         + ((if version.Some? then " " + version.value else "")
         + ((if FlavorsGiven(flavors) then " for " + FlavorsText(flavors) else "")
         + (" not found"
         + (if stack.Some? then " in " + stack.value else ""))))
  {
    FiveSlots(Slot(Name, Some("Product " + name)),
              Slot(Version, Wrap(" ", version)),
              Slot(Flavors, if FlavorsGiven(flavors) then Some(" for " + FlavorsText(flavors)) else None),
              Slot(Verdict, Some(" not found")),
              Slot(Stack, Wrap(" in ", stack)));
  }

  /**
   * The default UnderSpecifiedProduct message names the product (possibly
   * "None"), then the version iff given, then the flavor iff given.
   */
  lemma UnderSpecifiedLayout(name: Option<string>, version: Option<string>, flavor: Option<string>)
    ensures PartsOf(Fill(UnderSpecifiedTemplate(name, version, flavor)))
         == [Name] + (IfGiven(version.Some?, Version) + IfGiven(flavor.Some?, Flavor))
    ensures Subsequence(PartsOf(Fill(UnderSpecifiedTemplate(name, version, flavor))), [Name, Version, Flavor])
  {
    ThreeSlots(Slot(Name, Some("Under-specified product: " + Str(name))),
               Slot(Version, Wrap(" ver: ", version)),
               Slot(Flavor, Wrap(" flavor: ", flavor)));
    FillKeepsOrder(UnderSpecifiedTemplate(name, version, flavor));
  }

  /**
   * Each optional slot of the UnderSpecifiedProduct template contributes a segment exactly
   * when its argument is given.  This is a fact about the parts the template
   * labels its segments with; the text they render to is stated by `UnderSpecifiedText`.
   */
  lemma UnderSpecifiedPresence(name: Option<string>, version: Option<string>, flavor: Option<string>)
    ensures Version in PartsOf(Fill(UnderSpecifiedTemplate(name, version, flavor))) <==> version.Some?
    ensures Flavor in PartsOf(Fill(UnderSpecifiedTemplate(name, version, flavor))) <==> flavor.Some?
  {
    UnderSpecifiedLayout(name, version, flavor);
    var v, f := IfGiven(version.Some?, Version), IfGiven(flavor.Some?, Flavor);
    InThree(Version, [Name], v, f);
    InThree(Flavor, [Name], v, f);
  }

  lemma UnderSpecifiedText(name: Option<string>, version: Option<string>, flavor: Option<string>)
    ensures Render(Fill(UnderSpecifiedTemplate(name, version, flavor)))
      == "Under-specified product: " + Str(name)
         + ((if version.Some? then " ver: " + version.value else "")
         + (if flavor.Some? then " flavor: " + flavor.value else ""))
  {
    ThreeSlots(Slot(Name, Some("Under-specified product: " + Str(name))),
               Slot(Version, Wrap(" ver: ", version)),
               Slot(Flavor, Wrap(" flavor: ", flavor)));
  }

  /**
   * The default TablefileNotFound message starts with "Table file not found"
   * and then has the name, version, flavor and table file, each iff given,
   * in that order.
   */
  lemma TablefileLayout(tablefile: Option<string>, name: Option<string>, version: Option<string>, flavor: Option<string>)
    ensures PartsOf(Fill(TablefileTemplate(tablefile, name, version, flavor)))
         == [Lead] + (IfGiven(name.Some?, Name) + (IfGiven(version.Some?, Version)
            + (IfGiven(flavor.Some?, Flavor) + IfGiven(tablefile.Some?, Tablefile))))
    ensures Subsequence(PartsOf(Fill(TablefileTemplate(tablefile, name, version, flavor))),
                        [Lead, Name, Version, Flavor, Tablefile])
  {
    FiveSlots(Slot(Lead, Some("Table file not found")),
              Slot(Name, Wrap(" for ", name)),
              Slot(Version, Wrap(" ", version)),
              Slot(Flavor, Parenthesised(flavor)),
              Slot(Tablefile, Wrap(": ", tablefile)));
    FillKeepsOrder(TablefileTemplate(tablefile, name, version, flavor));
  }

  /**
   * Each optional slot of the TablefileNotFound template contributes a segment exactly
   * when its argument is given.  This is a fact about the parts the template
   * labels its segments with; the text they render to is stated by `TablefileText`.
   */
  lemma TablefilePresence(tablefile: Option<string>, name: Option<string>, version: Option<string>, flavor: Option<string>)
    ensures Name in PartsOf(Fill(TablefileTemplate(tablefile, name, version, flavor))) <==> name.Some?
    ensures Version in PartsOf(Fill(TablefileTemplate(tablefile, name, version, flavor))) <==> version.Some?
    ensures Flavor in PartsOf(Fill(TablefileTemplate(tablefile, name, version, flavor))) <==> flavor.Some?
    ensures Tablefile in PartsOf(Fill(TablefileTemplate(tablefile, name, version, flavor))) <==> tablefile.Some?
  {
    TablefileLayout(tablefile, name, version, flavor);
    var n, v, f, t := IfGiven(name.Some?, Name), IfGiven(version.Some?, Version),
                      IfGiven(flavor.Some?, Flavor), IfGiven(tablefile.Some?, Tablefile);
    InFive(Name, [Lead], n, v, f, t);
    InFive(Version, [Lead], n, v, f, t);
    InFive(Flavor, [Lead], n, v, f, t);
    InFive(Tablefile, [Lead], n, v, f, t);
  }

  lemma TablefileText(tablefile: Option<string>, name: Option<string>, version: Option<string>, flavor: Option<string>)
    ensures Render(Fill(TablefileTemplate(tablefile, name, version, flavor)))
      == "Table file not found"
         + ((if name.Some? then " for " + name.value else "")
         + ((if version.Some? then " " + version.value else "")
         + ((if flavor.Some? then " (" + flavor.value + ")" else "")
         + (if tablefile.Some? then ": " + tablefile.value else ""))))
  {
    FiveSlots(Slot(Lead, Some("Table file not found")),
              Slot(Name, Wrap(" for ", name)),
              Slot(Version, Wrap(" ", version)),
              Slot(Flavor, Parenthesised(flavor)),
              Slot(Tablefile, Wrap(": ", tablefile)));
  }

  // ---------------------------------------------------------------------
  // The exception objects

  /**
   * What an exception records beside its message: the attributes `name`,
   * `version`, `flavors` / `flavor`, `stack` and `tablefile` of the source
   * (ProductNotFound's `name`, a plain string there, is `product` here).
   */
  datatype Kind =
    | Plain
    | NotFound(product: string, version: Option<string>, flavors: seq<Option<string>>, stack: Option<string>)
    | UnderSpecified(name: Option<string>, version: Option<string>, flavor: Option<string>)
    | TablefileMissing(tablefile: Option<string>, name: Option<string>, version: Option<string>, flavor: Option<string>)

  class EupsException {
    var msg: string
    var kind: Kind

    /** A plain EUPS failure with the given message. */
    constructor (message: string)
      ensures msg == message && kind == Plain
    {
      msg := message;
      kind := Plain;
    }

    constructor ProductNotFound(name: string, version: Option<string>, flavors: FlavorsArg,
                                stack: Option<string>, explicit: Option<string>)
      ensures explicit.Some? ==> msg == explicit.value
      ensures explicit.None? ==> msg == Render(Fill(NotFoundTemplate(name, version, flavors, stack)))
      ensures kind == NotFound(name, version, StoredFlavors(flavors), stack)
    {
      var message: string;
      if explicit.Some? {
        message := explicit.value;
      } else {
        ghost var (lead, v, f, n, st) := ("Product " + name, if version.Some? then " " + version.value else "",
          if FlavorsGiven(flavors) then " for " + FlavorsText(flavors) else "", " not found",
          if stack.Some? then " in " + stack.value else "");
        message := "Product " + name;
        if version.Some? {
          message := message + (" " + version.value);
        }
        assert message == lead + v;
        if FlavorsGiven(flavors) {
          message := message + (" for " + FlavorsText(flavors));
        }
        assert message == (lead + v) + f;
        message := message + " not found";
        if stack.Some? {
          message := message + (" in " + stack.value);
        }
        assert message == (((lead + v) + f) + n) + st;
        AppendAssociates((lead + v) + f, n, st);
        AppendAssociates(lead + v, f, n + st);
        AppendAssociates(lead, v, f + (n + st));
        NotFoundText(name, version, flavors, stack);
      }
      msg := message;
      var stored: seq<Option<string>>;
      if flavors.FlavorList? {
        stored := flavors.flavors;
      } else {
        stored := [if flavors.OneFlavor? then Some(flavors.flavor) else None];
      }
      kind := NotFound(name, version, stored, stack);
    }

    constructor UnderSpecifiedProduct(productName: Option<string>, version: Option<string>,
                                      flavor: Option<string>, explicit: Option<string>)
      ensures explicit.Some? ==> msg == explicit.value
      ensures explicit.None? ==> msg == Render(Fill(UnderSpecifiedTemplate(productName, version, flavor)))
      ensures kind == UnderSpecified(productName, version, flavor)
    {
      var message: string;
      if explicit.Some? {
        message := explicit.value;
      } else {
        ghost var (lead, v, f) := ("Under-specified product: " + Str(productName),
          if version.Some? then " ver: " + version.value else "",
          if flavor.Some? then " flavor: " + flavor.value else "");
        message := "Under-specified product: " + Str(productName);
        if version.Some? {
          message := message + (" ver: " + version.value);
        }
        assert message == lead + v;
        if flavor.Some? {
          message := message + (" flavor: " + flavor.value);
        }
        assert message == (lead + v) + f;
        AppendAssociates(lead, v, f);
        UnderSpecifiedText(productName, version, flavor);
      }
      msg := message;
      kind := UnderSpecified(productName, version, flavor);
    }

    constructor TablefileNotFound(tablefile: Option<string>, productName: Option<string>,
                                  version: Option<string>, flavor: Option<string>, explicit: Option<string>)
      ensures explicit.Some? ==> msg == explicit.value
      ensures explicit.None? ==> msg == Render(Fill(TablefileTemplate(tablefile, productName, version, flavor)))
      ensures kind == TablefileMissing(tablefile, productName, version, flavor)
    {
      var message: string;
      if explicit.Some? {
        message := explicit.value;
      } else {
        ghost var (lead, n, v, f, t) := ("Table file not found",
          if productName.Some? then " for " + productName.value else "",
          if version.Some? then " " + version.value else "",
          if flavor.Some? then " (" + flavor.value + ")" else "",
          if tablefile.Some? then ": " + tablefile.value else "");
        message := "Table file not found";
        if productName.Some? {
          message := message + (" for " + productName.value);
        }
        assert message == lead + n;
        if version.Some? {
          message := message + (" " + version.value);
        }
        assert message == (lead + n) + v;
        if flavor.Some? {
          message := message + (" (" + flavor.value + ")");
        }
        assert message == ((lead + n) + v) + f;
        if tablefile.Some? {
          message := message + (": " + tablefile.value);
        }
        assert message == (((lead + n) + v) + f) + t;
        AppendAssociates((lead + n) + v, f, t);
        AppendAssociates(lead + n, v, f + t);
        AppendAssociates(lead, n, v + (f + t));
        TablefileText(tablefile, productName, version, flavor);
      }
      msg := message;
      kind := TablefileMissing(tablefile, productName, version, flavor);
    }

    /** `getMessage()`: the stored message. */
    function GetMessage(): (r: string)
      reads this
      ensures r == msg
    {
      msg
    }

    /** `__str__()`: the same text as `getMessage()`. */
    function ToString(): (r: string)
      reads this
      ensures r == GetMessage()
    {
      GetMessage()
    }
  }
}
