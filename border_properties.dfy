/**
 * What the border support promises about the values it resolves: the gate
 * each top-level value passes, the "px" rule for legacy unitless numbers,
 * the colour precedence, the per-side entries, the order of the record, the
 * feature-support predicate, and the registrar's idempotence.
 */
module BorderProperties {
  import opened Wrappers
  import opened Php
  import opened PhpNumeric
  import opened Border

  // ----- The "px" rule for radius and width -----

  /** Appending the unit twice is the same as once: "2px" is not numeric any more. */
  lemma WithPxUnitIdempotent(v: Value)
    ensures WithPxUnit(WithPxUnit(v)) == WithPxUnit(v)
  {
  }

  /** An integer and its decimal text resolve to the same length in pixels. */
  lemma NumberAndTextAgree(i: int)
    ensures WithPxUnit(Int(i)) == Str(IntToString(i) + "px")
    ensures WithPxUnit(Str(IntToString(i))) == Str(IntToString(i) + "px")
  {
    IntToStringIsNumeric(i);
  }

  /** A value that already ends in a unit is written as it is. */
  lemma UnitValueKept(s: string)
    requires EndsWithUnit(s)
    ensures WithPxUnit(Str(s)) == Str(s)
  {
    UnitSuffixNotNumeric(s);
  }

  // ----- Where each key of the record comes from -----

  /** A key absent from the second part is looked up in the first. */
  lemma LookupBefore(a: PhpArray, b: PhpArray, k: string)
    requires k !in Keys(b)
    ensures Lookup(a + b, k) == Lookup(a, k)
  {
    LookupAppend(a, b, k);
  }

  /** A key absent from the first part is looked up in the second. */
  lemma LookupAfter(a: PhpArray, b: PhpArray, k: string)
    requires k !in Keys(a)
    ensures Lookup(a + b, k) == Lookup(b, k)
  {
    LookupAppend(a, b, k);
  }

  /** The top-level keys are found among the top-level entries, never among the sides. */
  lemma LookupTopLevel(supports: Value, attributes: PhpArray, skip: SkipQuery, k: string)
    requires IsTopLevelKey(k)
    ensures Lookup(BorderStyles(supports, attributes, skip), k) == Lookup(TopLevelStyles(supports, attributes, skip), k)
  {
    var sides := if EmitsSides(supports) then SideEntries(attributes, skip) else [];
    SideEntriesForKeys(attributes, skip, Sides);
    assert k !in Keys(sides);
    LookupBefore(TopLevelStyles(supports, attributes, skip), sides, k);
  }

  /** Any other key is found among the side entries, when there are any. */
  lemma LookupOther(supports: Value, attributes: PhpArray, skip: SkipQuery, k: string)
    requires !IsTopLevelKey(k)
    ensures Lookup(BorderStyles(supports, attributes, skip), k)
            == if EmitsSides(supports) then Lookup(SideEntries(attributes, skip), k) else None
  {
    var radius, style := RadiusEntry(supports, attributes, skip), LineStyleEntry(supports, attributes, skip);
    var width, color := WidthEntry(supports, attributes, skip), ColorEntry(supports, attributes, skip);
    var sides := if EmitsSides(supports) then SideEntries(attributes, skip) else [];
    TopLevelKeysAppend(radius, style);
    TopLevelKeysAppend(radius + style, width);
    TopLevelKeysAppend(radius + style + width, color);
    LookupAfter(radius + style + width + color, sides, k);
  }

  /**
   * The radius is written exactly when radius is supported, set and not
   * skipped, with "px" added to a purely numeric value.
   */
  lemma RadiusResolution(supports: Value, attributes: PhpArray, skip: SkipQuery)
    ensures var styles := BorderStyles(supports, attributes, skip);
      && ("radius" in Keys(styles) <==>
            HasBorderFeatureSupport(supports, "radius", false)
            && IsSet(Arr(attributes), ["style", "border", "radius"])
            && !skip(BorderSupportKey, Some("radius")))
      && ("radius" in Keys(styles) ==>
            Lookup(styles, "radius") == Some(WithPxUnit(BorderAttribute(attributes, "radius"))))
  {
    var radius, style := RadiusEntry(supports, attributes, skip), LineStyleEntry(supports, attributes, skip);
    var width, color := WidthEntry(supports, attributes, skip), ColorEntry(supports, attributes, skip);
    LookupTopLevel(supports, attributes, skip, "radius");
    LookupBefore(radius + style + width, color, "radius");
    LookupBefore(radius + style, width, "radius");
    LookupBefore(radius, style, "radius");
  }

  /** The line style is written exactly when supported, set and not skipped, as it is. */
  lemma LineStyleResolution(supports: Value, attributes: PhpArray, skip: SkipQuery)
    ensures var styles := BorderStyles(supports, attributes, skip);
      && ("style" in Keys(styles) <==>
            HasBorderFeatureSupport(supports, "style", false)
            && IsSet(Arr(attributes), ["style", "border", "style"])
            && !skip(BorderSupportKey, Some("style")))
      && ("style" in Keys(styles) ==>
            Lookup(styles, "style") == Some(BorderAttribute(attributes, "style")))
  {
    var radius, style := RadiusEntry(supports, attributes, skip), LineStyleEntry(supports, attributes, skip);
    var width, color := WidthEntry(supports, attributes, skip), ColorEntry(supports, attributes, skip);
    LookupTopLevel(supports, attributes, skip, "style");
    LookupBefore(radius + style + width, color, "style");
    LookupBefore(radius + style, width, "style");
    LookupAfter(radius, style, "style");
  }

  /** The width is written exactly when supported, set and not skipped, with "px" added to a number. */
  lemma WidthResolution(supports: Value, attributes: PhpArray, skip: SkipQuery)
    ensures var styles := BorderStyles(supports, attributes, skip);
      && ("width" in Keys(styles) <==>
            HasBorderFeatureSupport(supports, "width", false)
            && IsSet(Arr(attributes), ["style", "border", "width"])
            && !skip(BorderSupportKey, Some("width")))
      && ("width" in Keys(styles) ==>
            Lookup(styles, "width") == Some(WithPxUnit(BorderAttribute(attributes, "width"))))
  {
    var radius, style := RadiusEntry(supports, attributes, skip), LineStyleEntry(supports, attributes, skip);
    var width, color := WidthEntry(supports, attributes, skip), ColorEntry(supports, attributes, skip);
    LookupTopLevel(supports, attributes, skip, "width");
    LookupBefore(radius + style + width, color, "width");
    KeysAppend(radius, style);
    LookupAfter(radius + style, width, "width");
  }

  /**
   * The colour is written whenever colour is supported and not skipped,
   * whatever the attributes hold: the preset reference when `borderColor`
   * exists, otherwise the custom colour, which may be null.
   */
  lemma ColorResolution(supports: Value, attributes: PhpArray, skip: SkipQuery)
    ensures var styles := BorderStyles(supports, attributes, skip);
      && ("color" in Keys(styles) <==>
            HasBorderFeatureSupport(supports, "color", false) && !skip(BorderSupportKey, Some("color")))
      && ("color" in Keys(styles) ==>
            Lookup(styles, "color") ==
              Some(if "borderColor" in Keys(attributes)
                   then Str("var:preset|color|" + ToPhpString(Lookup(attributes, "borderColor").value))
                   else WpArrayGet(Arr(attributes), ["style", "border", "color"], Null)))
  {
    var radius, style := RadiusEntry(supports, attributes, skip), LineStyleEntry(supports, attributes, skip);
    var width, color := WidthEntry(supports, attributes, skip), ColorEntry(supports, attributes, skip);
    LookupTopLevel(supports, attributes, skip, "color");
    KeysAppend(radius, style);
    KeysAppend(radius + style, width);
    LookupAfter(radius + style + width, color, "color");
    if "borderColor" in Keys(attributes) {
      PresetReferenceTruthy(Lookup(attributes, "borderColor").value);
    }
  }

  /** A preset reference is never empty, so it always wins over the custom colour. */
  lemma PresetReferenceTruthy(slug: Value)
    ensures Truthy(Str("var:preset|color|" + ToPhpString(slug)))
  {
    var preset := "var:preset|color|" + ToPhpString(slug);
    assert preset[0] == 'v';
  }

  /**
   * Each side gets an entry exactly when border colour or width is
   * supported. Its width, colour and style are the side's own values when
   * set and not skipped, and null otherwise; whether the sub-feature is
   * supported is not consulted.
   */
  lemma SideResolution(supports: Value, attributes: PhpArray, skip: SkipQuery, i: nat)
    requires i < |Sides|
    ensures var styles := BorderStyles(supports, attributes, skip);
      var side := WpArrayGet(Arr(attributes), ["style", "border", Sides[i]], Null);
      && (Sides[i] in Keys(styles) <==>
            HasBorderFeatureSupport(supports, "color", false) || HasBorderFeatureSupport(supports, "width", false))
      && (Sides[i] in Keys(styles) ==>
            Lookup(styles, Sides[i]) == Some(Arr([
              ("width", if IsSet(side, ["width"]) && !skip(BorderSupportKey, Some("width")) then Walk(side, ["width"]).value else Null),
              ("color", if IsSet(side, ["color"]) && !skip(BorderSupportKey, Some("color")) then Walk(side, ["color"]).value else Null),
              ("style", if IsSet(side, ["style"]) && !skip(BorderSupportKey, Some("style")) then Walk(side, ["style"]).value else Null)])))
  {
    var k := Sides[i];
    assert k in Sides;
    assert !IsTopLevelKey(k);
    LookupOther(supports, attributes, skip, k);
    SidesDistinct();
    SideEntryLookup(attributes, skip, Sides, i);
    assert SideStyles(attributes, skip, k) == Arr([
      ("width", SideValue(BorderAttribute(attributes, k), "width", skip)),
      ("color", SideValue(BorderAttribute(attributes, k), "color", skip)),
      ("style", SideValue(BorderAttribute(attributes, k), "style", skip))]);
  }

  /** In the entries for distinct sides, side `i` maps to its own entry. */
  lemma {:induction false} SideEntryLookup(attributes: PhpArray, skip: SkipQuery, sides: seq<string>, i: nat)
    requires i < |sides|
    requires Distinct(sides)
    ensures Lookup(SideEntriesFor(attributes, skip, sides), sides[i]) == Some(SideStyles(attributes, skip, sides[i]))
  {
    var head := [(sides[0], SideStyles(attributes, skip, sides[0]))];
    var tail := SideEntriesFor(attributes, skip, sides[1..]);
    LookupAppend(head, tail, sides[i]);
    if i > 0 {
      assert sides[i] != sides[0];
      assert Keys(head) == [sides[0]];
      SideEntryLookup(attributes, skip, sides[1..], i - 1);
    }
  }

  /** A skipped colour is never written: no `color` key, and a null colour on every side. */
  lemma SkippedColorNeverWritten(supports: Value, attributes: PhpArray, skip: SkipQuery, i: nat)
    requires skip(BorderSupportKey, Some("color"))
    requires i < |Sides|
    ensures var styles := BorderStyles(supports, attributes, skip);
      && "color" !in Keys(styles)
      && (Sides[i] in Keys(styles) ==>
            Lookup(styles, Sides[i]).value.Arr?
            && Lookup(Lookup(styles, Sides[i]).value.entries, "color") == Some(Null))
  {
    ColorResolution(supports, attributes, skip);
    SideResolution(supports, attributes, skip, i);
  }

  // ----- The order of the record -----

  /**
   * The record's keys come in a fixed order: radius, line style, width and
   * colour, each when written, then the four sides when written at all.
   */
  lemma RecordKeyOrder(supports: Value, attributes: PhpArray, skip: SkipQuery)
    ensures Keys(BorderStyles(supports, attributes, skip)) ==
      (if Gate(supports, attributes, skip, "radius") then ["radius"] else [])
      + (if Gate(supports, attributes, skip, "style") then ["style"] else [])
      + (if Gate(supports, attributes, skip, "width") then ["width"] else [])
      + (if HasBorderFeatureSupport(supports, "color", false) && !skip(BorderSupportKey, Some("color"))
         then ["color"] else [])
      + (if EmitsSides(supports) then ["top", "right", "bottom", "left"] else [])
  {
    var radius, style := RadiusEntry(supports, attributes, skip), LineStyleEntry(supports, attributes, skip);
    var width, color := WidthEntry(supports, attributes, skip), ColorEntry(supports, attributes, skip);
    var sides := if EmitsSides(supports) then SideEntries(attributes, skip) else [];
    KeysAppend(radius, style);
    KeysAppend(radius + style, width);
    KeysAppend(radius + style + width, color);
    KeysAppend(radius + style + width + color, sides);
    SideEntriesForKeys(attributes, skip, Sides);
  }

  /**
   * A block type without border support (no border flag, or a flag that is
   * neither `true` nor an array) resolves to an empty record.
   */
  lemma NoBorderSupportEmptyRecord(supports: Value, attributes: PhpArray, skip: SkipQuery)
    requires !BlockHasSupport(supports, [BorderSupportKey], false)
    ensures BorderStyles(supports, attributes, skip) == []
  {
    forall feature
      ensures !HasBorderFeatureSupport(supports, feature, false)
    {
      if HasBorderFeatureSupport(supports, feature, false) {
        FeatureSupportNeedsBorderSupport(supports, feature);
      }
    }
    assert RadiusEntry(supports, attributes, skip) == [];
    assert LineStyleEntry(supports, attributes, skip) == [];
    assert WidthEntry(supports, attributes, skip) == [];
    assert ColorEntry(supports, attributes, skip) == [];
    assert !EmitsSides(supports);
  }

  // ----- The feature-support predicate -----

  /**
   * `true` turns every feature on; a nested `true` or array turns on that
   * feature alone; `false` or a missing flag leaves it off.
   */
  lemma SupportExamples()
    ensures var all := Arr([(BorderSupportKey, Bool(true))]);
      HasBorderFeatureSupport(all, "radius", false) && HasBorderFeatureSupport(all, "width", false)
    ensures var some := Arr([(BorderSupportKey, Arr([("color", Bool(true)), ("radius", Bool(false))]))]);
      && HasBorderFeatureSupport(some, "color", false)
      && !HasBorderFeatureSupport(some, "radius", false)
      && !HasBorderFeatureSupport(some, "width", false)
      && HasBorderFeatureSupport(some, "width", true)
  {
    var all := Arr([(BorderSupportKey, Bool(true))]);
    assert Walk(all, [BorderSupportKey]) == Some(Bool(true));
    var flags := Arr([("color", Bool(true)), ("radius", Bool(false))]);
    var some := Arr([(BorderSupportKey, flags)]);
    assert Walk(some, [BorderSupportKey]) == Some(flags);
    assert Walk(flags, ["color"]) == Some(Bool(true));
    assert Walk(flags, ["radius"]) == Some(Bool(false));
    assert Walk(flags, ["width"]) == None;
    WalkFirst(some, BorderSupportKey, ["color"]);
    WalkFirst(some, BorderSupportKey, ["radius"]);
    WalkFirst(some, BorderSupportKey, ["width"]);
    assert [BorderSupportKey] + ["color"] == [BorderSupportKey, "color"];
    assert [BorderSupportKey] + ["radius"] == [BorderSupportKey, "radius"];
    assert [BorderSupportKey] + ["width"] == [BorderSupportKey, "width"];
  }

  // ----- The registrar -----

  /** Registering a second time changes nothing. */
  lemma RegisterIdempotent(supports: Value, attributes: Option<PhpArray>)
    ensures var once := RegisteredSchema(supports, attributes);
      RegisteredSchema(supports, Some(once)) == once
  {
    var once := RegisteredSchema(supports, attributes);
    if BlockHasSupport(supports, [BorderSupportKey], false) {
      assert Lookup(once, "style").Some?;
    }
    if HasBorderFeatureSupport(supports, "color", false) {
      assert Lookup(once, "borderColor").Some?;
    }
  }

  /** When registration adds `borderColor`, the schema also has `style`. */
  lemma RegisteredColorHasStyle(supports: Value, attributes: Option<PhpArray>)
    requires "borderColor" !in Keys(attributes.GetOr([]))
    requires "borderColor" in Keys(RegisteredSchema(supports, attributes))
    ensures "style" in Keys(RegisteredSchema(supports, attributes))
  {
    var r := RegisteredSchema(supports, attributes);
    assert Lookup(r, "borderColor").Some?;
    FeatureSupportNeedsBorderSupport(supports, "color");
    assert Lookup(r, "style").Some?;
  }

  // ----- A worked example -----

  /** Full border support. */
  const CyanSupports := Arr([(BorderSupportKey, Bool(true))])

  /** The border attributes of the worked example. */
  const CyanBorder := Arr([("width", Int(2)), ("radius", Str("10px"))])

  /** A preset colour "cyan", a numeric width 2 and a radius "10px". */
  const CyanAttributes: PhpArray := [("borderColor", Str("cyan")), ("style", Arr([("border", CyanBorder)]))]

  /** Nothing is skipped. */
  const NoSkip: SkipQuery := (_, _) => false

  /** A side entry with no values. */
  const EmptySide := Arr([("width", Null), ("color", Null), ("style", Null)])

  /** Where the example's border values are found. */
  lemma CyanBorderValues(key: string)
    ensures Walk(Arr(CyanAttributes), ["style", "border", key]) == Lookup(CyanBorder.entries, key)
  {
    assert Walk(Arr(CyanAttributes), ["style"]) == Some(Arr([("border", CyanBorder)]));
    WalkFirst(Arr(CyanAttributes), "style", ["border", key]);
    assert ["style"] + ["border", key] == ["style", "border", key];
    assert Walk(Arr([("border", CyanBorder)]), ["border", key]) == Walk(CyanBorder, [key]);
  }

  lemma CyanRadius(supports: Value, attributes: PhpArray, skip: SkipQuery)
    requires supports == CyanSupports && attributes == CyanAttributes && skip == NoSkip
    ensures RadiusEntry(supports, attributes, skip) == [("radius", Str("10px"))]
  {
    CyanBorderValues("radius");
    assert Walk(CyanSupports, [BorderSupportKey]) == Some(Bool(true));
    UnitValueKept("10px");
  }

  lemma CyanLineStyle(supports: Value, attributes: PhpArray, skip: SkipQuery)
    requires supports == CyanSupports && attributes == CyanAttributes && skip == NoSkip
    ensures LineStyleEntry(supports, attributes, skip) == []
  {
    CyanBorderValues("style");
  }

  lemma CyanWidth(supports: Value, attributes: PhpArray, skip: SkipQuery)
    requires supports == CyanSupports && attributes == CyanAttributes && skip == NoSkip
    ensures WidthEntry(supports, attributes, skip) == [("width", Str("2px"))]
  {
    CyanBorderValues("width");
    assert Walk(CyanSupports, [BorderSupportKey]) == Some(Bool(true));
    NumberAndTextAgree(2);
    TwoPixels();
  }

  lemma TwoPixels()
    ensures IntToString(2) + "px" == "2px"
  {
    assert IntToString(2) == "2";
  }

  lemma CyanColor(supports: Value, attributes: PhpArray, skip: SkipQuery)
    requires supports == CyanSupports && attributes == CyanAttributes && skip == NoSkip
    ensures ColorEntry(supports, attributes, skip) == [("color", Str("var:preset|color|cyan"))]
  {
    assert Walk(CyanSupports, [BorderSupportKey]) == Some(Bool(true));
    assert Lookup(CyanAttributes, "borderColor") == Some(Str("cyan"));
    PresetReferenceTruthy(Str("cyan"));
    assert "var:preset|color|" + ToPhpString(Str("cyan")) == "var:preset|color|cyan";
  }

  lemma CyanTopLevel(supports: Value, attributes: PhpArray, skip: SkipQuery)
    requires supports == CyanSupports && attributes == CyanAttributes && skip == NoSkip
    ensures TopLevelStyles(supports, attributes, skip)
            == [("radius", Str("10px")), ("width", Str("2px")), ("color", Str("var:preset|color|cyan"))]
  {
    CyanRadius(supports, attributes, skip);
    CyanLineStyle(supports, attributes, skip);
    CyanWidth(supports, attributes, skip);
    CyanColor(supports, attributes, skip);
    CyanTopLevelJoined();
  }

  lemma CyanTopLevelJoined()
    ensures [("radius", Str("10px"))] + [] + [("width", Str("2px"))] + [("color", Str("var:preset|color|cyan"))]
            == [("radius", Str("10px")), ("width", Str("2px")), ("color", Str("var:preset|color|cyan"))]
  {
  }

  lemma CyanJoined()
    ensures [("radius", Str("10px")), ("width", Str("2px")), ("color", Str("var:preset|color|cyan"))]
            + [("top", EmptySide), ("right", EmptySide), ("bottom", EmptySide), ("left", EmptySide)]
            == [("radius", Str("10px")), ("width", Str("2px")), ("color", Str("var:preset|color|cyan")),
                ("top", EmptySide), ("right", EmptySide), ("bottom", EmptySide), ("left", EmptySide)]
  {
  }

  /** Sides whose entries are all empty give a list of empty entries, one per side, in order. */
  lemma {:induction false} EmptySideEntries(attributes: PhpArray, skip: SkipQuery, sides: seq<string>)
    requires forall side :: side in sides ==> SideStyles(attributes, skip, side) == EmptySide
    ensures |SideEntriesFor(attributes, skip, sides)| == |sides|
    ensures forall i :: 0 <= i < |sides| ==> SideEntriesFor(attributes, skip, sides)[i] == (sides[i], EmptySide)
  {
    if sides != [] {
      assert sides[0] in sides;
      assert forall side :: side in sides[1..] ==> side in sides;
      EmptySideEntries(attributes, skip, sides[1..]);
    }
  }

  /**
   * When no side has attributes of its own, every side is still emitted,
   * with null width, colour and style.
   */
  lemma UnsetSidesAreNull(attributes: PhpArray, skip: SkipQuery)
    requires forall side :: side in Sides ==> Walk(Arr(attributes), ["style", "border", side]).None?
    ensures SideEntries(attributes, skip)
            == [("top", EmptySide), ("right", EmptySide), ("bottom", EmptySide), ("left", EmptySide)]
  {
    forall side | side in Sides
      ensures SideStyles(attributes, skip, side) == EmptySide
    {
      assert BorderAttribute(attributes, side) == Null;
    }
    EmptySideEntries(attributes, skip, Sides);
  }

  /** The example has no per-side attributes. */
  lemma CyanHasNoSides(attributes: PhpArray)
    requires attributes == CyanAttributes
    ensures forall side :: side in Sides ==> Walk(Arr(attributes), ["style", "border", side]).None?
  {
    forall side | side in Sides
      ensures Walk(Arr(attributes), ["style", "border", side]).None?
    {
      CyanBorderValues(side);
    }
  }

  /**
   * The worked example: radius and width are written with their units, the
   * colour as a preset reference, the unset line style not at all, and every
   * side with null values.
   */
  lemma CyanExample(supports: Value, attributes: PhpArray, skip: SkipQuery)
    requires supports == CyanSupports && attributes == CyanAttributes && skip == NoSkip
    ensures BorderStyles(supports, attributes, skip) ==
      [("radius", Str("10px")), ("width", Str("2px")), ("color", Str("var:preset|color|cyan")),
       ("top", EmptySide), ("right", EmptySide), ("bottom", EmptySide), ("left", EmptySide)]
  {
    CyanTopLevel(supports, attributes, skip);
    CyanHasNoSides(attributes);
    UnsetSidesAreNull(attributes, skip);
    assert Walk(CyanSupports, [BorderSupportKey]) == Some(Bool(true));
    assert EmitsSides(supports);
    assert BorderStyles(supports, attributes, skip) == TopLevelStyles(supports, attributes, skip) + SideEntries(attributes, skip);
    CyanJoined();
  }
}
