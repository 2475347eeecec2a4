/**
 * The server side of the border block support: which border features a
 * block type supports, the attribute-schema entries the support registers,
 * and the border style record a block's attributes resolve to, which is
 * handed to the style engine for class names and inline CSS.
 */
module Border {
  import opened Wrappers
  import opened Php
  import opened PhpNumeric

  /** The supports key under which a block type declares its border features. */
  const BorderSupportKey := "__experimentalBorder"

  /** The sides that get an entry of their own, in the order they are emitted. */
  const Sides: seq<string> := ["top", "right", "bottom", "left"]

  /** The schema entry added for the `style` attribute. */
  const StyleSchema := Arr([("type", Str("object"))])

  /** The schema entry added for the `borderColor` attribute. */
  const BorderColorSchema := Arr([("type", Str("string"))])

  /** The options the style engine is called with: preset references become CSS variables. */
  const EngineOptions := Arr([("css_vars", Bool(true))])

  /**
   * The serialization-skip query, for the block type being rendered:
   * whether a feature set (`None`) or one feature of it must not be written
   * into the markup.
   */
  type SkipQuery = (string, Option<string>) -> bool

  /** What the style engine returns: class names and inline CSS, each possibly missing. */
  datatype EngineOutput = EngineOutput(classnames: Option<string>, css: Option<string>)

  /** The style engine: a style description and options in, class names and CSS out. */
  type StyleEngine = (Value, Value) -> EngineOutput

  /** A registered block type: its support flags and its attribute schema (`None` is null). */
  class BlockType {
    var supports: Value
    var attributes: Option<PhpArray>

    constructor (supports: Value, attributes: Option<PhpArray>)
      ensures this.supports == supports && this.attributes == attributes
    {
      this.supports := supports;
      this.attributes := attributes;
    }
  }

  /** `block_has_support`: the flag found at `path` (or `default`) is `true` or an array. */
  predicate BlockHasSupport(supports: Value, path: seq<string>, default: bool)
    ensures path != [] ==>
      (BlockHasSupport(supports, path, default) <==>
         match Walk(supports, path)
         case Some(flag) => flag == Bool(true) || flag.Arr?
         case None => default)
  {
    var flag := WpArrayGet(supports, path, Bool(default));
    flag == Bool(true) || flag.Arr?
  }

  /**
   * Whether the block type supports the border feature `feature`: every
   * feature when the border flag is exactly `true`; otherwise the nested
   * flag for the feature, which counts when it is `true` or an array, and
   * `default` when it cannot be found.
   */
  function HasBorderFeatureSupport(supports: Value, feature: string, default: bool): (r: bool)
    ensures Walk(supports, [BorderSupportKey]) == Some(Bool(true)) ==> r
    ensures Walk(supports, [BorderSupportKey]) != Some(Bool(true)) ==>
              (r <==> match Walk(supports, [BorderSupportKey, feature])
                      case Some(flag) => flag == Bool(true) || flag.Arr?
                      case None => default)
  {
    WalkFirst(supports, BorderSupportKey, [feature]);
    assert [BorderSupportKey] + [feature] == [BorderSupportKey, feature];
    WpArrayGet(supports, [BorderSupportKey], Bool(default)) == Bool(true)
    || BlockHasSupport(supports, [BorderSupportKey, feature], default)
  }

  /** A border feature is only ever supported when the block type has border support at all. */
  lemma FeatureSupportNeedsBorderSupport(supports: Value, feature: string)
    requires HasBorderFeatureSupport(supports, feature, false)
    ensures BlockHasSupport(supports, [BorderSupportKey], false)
  {
    WalkFirst(supports, BorderSupportKey, [feature]);
    assert [BorderSupportKey] + [feature] == [BorderSupportKey, feature];
  }

  /**
   * The attribute schema after registration: a null schema becomes an empty
   * array, `style` is added when the block type has any border support and
   * `borderColor` when it supports border colour, in each case only if the
   * key is not there already.
   */
  function RegisteredSchema(supports: Value, attributes: Option<PhpArray>): (r: PhpArray)
    ensures var base := attributes.GetOr([]);
      && |base| <= |r| && r[..|base|] == base
      && Lookup(r, "style") ==
           (if "style" in Keys(base) then Lookup(base, "style")
            else if BlockHasSupport(supports, [BorderSupportKey], false) then Some(StyleSchema)
            else None)
      && Lookup(r, "borderColor") ==
           (if "borderColor" in Keys(base) then Lookup(base, "borderColor")
            else if HasBorderFeatureSupport(supports, "color", false) then Some(BorderColorSchema)
            else None)
      && (forall k :: k != "style" && k != "borderColor" ==> Lookup(r, k) == Lookup(base, k))
      && Keys(r) == Keys(base)
           + (if BlockHasSupport(supports, [BorderSupportKey], false) && "style" !in Keys(base)
              then ["style"] else [])
           + (if HasBorderFeatureSupport(supports, "color", false) && "borderColor" !in Keys(base)
              then ["borderColor"] else [])
  {
    var base := attributes.GetOr([]);
    var withStyle := AddIfMissing(base, BlockHasSupport(supports, [BorderSupportKey], false), "style", StyleSchema);
    AddIfMissing(withStyle, HasBorderFeatureSupport(supports, "color", false), "borderColor", BorderColorSchema)
  }

  /** Registers one attribute: `k` is written with `v` when `add` holds and `k` is not a key yet. */
  function AddIfMissing(a: PhpArray, add: bool, k: string, v: Value): (r: PhpArray)
    ensures |a| <= |r| && r[..|a|] == a
    ensures Keys(r) == Keys(a) + (if add && k !in Keys(a) then [k] else [])
    ensures Lookup(r, k) == if k in Keys(a) then Lookup(a, k) else if add then Some(v) else None
    ensures forall k' :: k' != k ==> Lookup(r, k') == Lookup(a, k')
  {
    if add && k !in Keys(a) then
      assert (a + [(k, v)])[..|a|] == a;
      Put(a, k, v)
    else a
  }

  /** Registers the attributes the border support needs on `blockType`, in place. */
  method RegisterBorderSupport(blockType: BlockType)
    modifies blockType`attributes
    ensures blockType.attributes == Some(RegisteredSchema(blockType.supports, old(blockType.attributes)))
  {
    var hasBorderSupport := BlockHasSupport(blockType.supports, [BorderSupportKey], false);
    var hasBorderColorSupport := HasBorderFeatureSupport(blockType.supports, "color", false);

    if blockType.attributes.None? || blockType.attributes.value == [] {
      blockType.attributes := Some([]);
    }

    if hasBorderSupport && "style" !in Keys(blockType.attributes.value) {
      blockType.attributes := Some(Put(blockType.attributes.value, "style", StyleSchema));
    }

    if hasBorderColorSupport && "borderColor" !in Keys(blockType.attributes.value) {
      blockType.attributes := Some(Put(blockType.attributes.value, "borderColor", BorderColorSchema));
    }
  }

  /** The attribute path `style.border.<key>`. */
  function BorderPath(key: string): seq<string> {
    ["style", "border", key]
  }

  /** The value at `style.border.<key>` of the block attributes, null when there is none. */
  function BorderAttribute(attributes: PhpArray, key: string): Value {
    WpArrayGet(Arr(attributes), BorderPath(key), Null)
  }

  /**
   * The gate a top-level border value passes before it is written: the
   * feature is supported, `style.border.<feature>` is set, and the feature's
   * serialization is not skipped.
   */
  predicate Gate(supports: Value, attributes: PhpArray, skip: SkipQuery, feature: string)
    ensures Gate(supports, attributes, skip, feature) ==> BlockHasSupport(supports, [BorderSupportKey], false)
    ensures Gate(supports, attributes, skip, feature) ==> BorderAttribute(attributes, feature) != Null
  {
    if HasBorderFeatureSupport(supports, feature, false) then
      FeatureSupportNeedsBorderSupport(supports, feature);
      IsSet(Arr(attributes), BorderPath(feature)) && !skip(BorderSupportKey, Some(feature))
    else false
  }

  /**
   * A purely numeric value gets "px" appended (turning it into a string);
   * any other value is kept. The result is never a bare number.
   */
  function WithPxUnit(v: Value): (r: Value)
    ensures !IsNumeric(r)
    ensures r == v || (IsNumeric(v) && r == Str(ToPhpString(v) + "px"))
  {
    if IsNumeric(v) then
      var s := ToPhpString(v) + "px";
      assert s[|s| - 1] == 'x';
      Str(s)
    else v
  }

  /**
   * The border colour: a preset reference built from `borderColor` when
   * that key exists, otherwise the custom colour at `style.border.color`,
   * which may be null.
   */
  function BorderColor(attributes: PhpArray): (r: Value)
    ensures "borderColor" in Keys(attributes) ==>
              r == Str("var:preset|color|" + ToPhpString(Lookup(attributes, "borderColor").value))
    ensures "borderColor" !in Keys(attributes) ==> r == BorderAttribute(attributes, "color")
  {
    var preset :=
      if "borderColor" in Keys(attributes)
      then Str("var:preset|color|" + ToPhpString(Lookup(attributes, "borderColor").value))
      else Null;
    var custom := BorderAttribute(attributes, "color");
    assert preset.Str? ==> preset.s[0] == 'v';
    if Truthy(preset) then preset else custom
  }

  /** One side's `width`, `color` or `style`: the value when it is set and not skipped, null otherwise. */
  function SideValue(side: Value, key: string, skip: SkipQuery): (r: Value)
    ensures r == Null <==> !IsSet(side, [key]) || skip(BorderSupportKey, Some(key))
    ensures r != Null ==> Walk(side, [key]) == Some(r)
  {
    if IsSet(side, [key]) && !skip(BorderSupportKey, Some(key)) then Walk(side, [key]).value else Null
  }

  /** The entry for one side: its width, colour and style, each possibly null. */
  function SideStyles(attributes: PhpArray, skip: SkipQuery, side: string): (r: Value)
    ensures r.Arr? && Keys(r.entries) == ["width", "color", "style"]
  {
    var border := BorderAttribute(attributes, side);
    var entries := [("width", SideValue(border, "width", skip)),
                    ("color", SideValue(border, "color", skip)),
                    ("style", SideValue(border, "style", skip))];
    assert Keys(entries[2..]) == ["style"];
    assert Keys(entries[1..]) == ["color", "style"];
    Arr(entries)
  }

  /** The entries for the given sides, in the order given. */
  function SideEntriesFor(attributes: PhpArray, skip: SkipQuery, sides: seq<string>): PhpArray {
    if sides == [] then []
    else [(sides[0], SideStyles(attributes, skip, sides[0]))] + SideEntriesFor(attributes, skip, sides[1..])
  }

  /** The four side entries, in side order. */
  function SideEntries(attributes: PhpArray, skip: SkipQuery): PhpArray {
    SideEntriesFor(attributes, skip, Sides)
  }

  /** A single entry `(key, v)` when `present`, nothing otherwise. */
  function Optional(present: bool, key: string, v: Value): (r: PhpArray)
    ensures Keys(r) == if present then [key] else []
  {
    if present then [(key, v)] else []
  }

  /** The radius entry: present when its gate passes, with "px" added to a purely numeric value. */
  function RadiusEntry(supports: Value, attributes: PhpArray, skip: SkipQuery): PhpArray {
    Optional(Gate(supports, attributes, skip, "radius"), "radius", WithPxUnit(BorderAttribute(attributes, "radius")))
  }

  /** The line-style entry: present when its gate passes, copied verbatim. */
  function LineStyleEntry(supports: Value, attributes: PhpArray, skip: SkipQuery): PhpArray {
    Optional(Gate(supports, attributes, skip, "style"), "style", BorderAttribute(attributes, "style"))
  }

  /** The width entry: present when its gate passes, with "px" added to a purely numeric value. */
  function WidthEntry(supports: Value, attributes: PhpArray, skip: SkipQuery): PhpArray {
    Optional(Gate(supports, attributes, skip, "width"), "width", WithPxUnit(BorderAttribute(attributes, "width")))
  }

  /** The colour entry: present whenever colour is supported and not skipped, even when its value is null. */
  function ColorEntry(supports: Value, attributes: PhpArray, skip: SkipQuery): PhpArray {
    Optional(HasBorderFeatureSupport(supports, "color", false) && !skip(BorderSupportKey, Some("color")),
             "color", BorderColor(attributes))
  }

  /** The entries for radius, line style, width and colour, in that order. */
  function TopLevelStyles(supports: Value, attributes: PhpArray, skip: SkipQuery): PhpArray {
    RadiusEntry(supports, attributes, skip) + LineStyleEntry(supports, attributes, skip)
    + WidthEntry(supports, attributes, skip) + ColorEntry(supports, attributes, skip)
  }

  /** Whether the side entries are emitted at all: border colour or border width is supported. */
  predicate EmitsSides(supports: Value) {
    HasBorderFeatureSupport(supports, "color", false) || HasBorderFeatureSupport(supports, "width", false)
  }

  /** The border style record handed to the style engine. */
  function BorderStyles(supports: Value, attributes: PhpArray, skip: SkipQuery): (r: PhpArray)
    ensures Keys(r) == Keys(TopLevelStyles(supports, attributes, skip)) + (if EmitsSides(supports) then Sides else [])
    ensures forall k :: k in Keys(r) ==> IsTopLevelKey(k) || k in Sides
  {
    var top := TopLevelStyles(supports, attributes, skip);
    var sides := if EmitsSides(supports) then SideEntries(attributes, skip) else [];
    TopLevelKeys(supports, attributes, skip);
    SideEntriesForKeys(attributes, skip, Sides);
    KeysAppend(top, sides);
    top + sides
  }

  /** `! empty( $s )` for a string the engine may or may not return, as the value written. */
  function NonEmpty(s: Option<string>): (r: Option<Value>)
    ensures r.Some? <==> s.Some? && s.value != "" && s.value != "0"
    ensures r.Some? ==> r.value == Str(s.value)
  {
    if s.Some? && Truthy(Str(s.value)) then Some(Str(s.value)) else None
  }

  lemma {:induction false} SideEntriesForKeys(attributes: PhpArray, skip: SkipQuery, sides: seq<string>)
    ensures Keys(SideEntriesFor(attributes, skip, sides)) == sides
  {
    if sides != [] {
      SideEntriesForKeys(attributes, skip, sides[1..]);
    }
  }

  /** Adding one more side adds its entry at the end. */
  lemma {:induction false} SideEntriesForSnoc(attributes: PhpArray, skip: SkipQuery, sides: seq<string>, side: string)
    ensures SideEntriesFor(attributes, skip, sides + [side])
            == SideEntriesFor(attributes, skip, sides) + [(side, SideStyles(attributes, skip, side))]
  {
    if sides == [] {
      assert sides + [side] == [side];
    } else {
      assert (sides + [side])[0] == sides[0] && (sides + [side])[1..] == sides[1..] + [side];
      SideEntriesForSnoc(attributes, skip, sides[1..], side);
    }
  }

  lemma SidesDistinct()
    ensures Distinct(Sides)
  {
  }

  /** The keys the sections before the sides may write. */
  predicate IsTopLevelKey(k: string) {
    k == "radius" || k == "style" || k == "width" || k == "color"
  }

  lemma {:induction false} TopLevelKeysAppend(a: PhpArray, b: PhpArray)
    requires forall k :: k in Keys(a) ==> IsTopLevelKey(k)
    requires forall k :: k in Keys(b) ==> IsTopLevelKey(k)
    ensures forall k :: k in Keys(a + b) ==> IsTopLevelKey(k)
  {
    KeysAppend(a, b);
  }

  /** The sections before the sides write only top-level keys. */
  lemma TopLevelKeys(supports: Value, attributes: PhpArray, skip: SkipQuery)
    ensures forall k :: k in Keys(TopLevelStyles(supports, attributes, skip)) ==> IsTopLevelKey(k)
  {
    var radius, style := RadiusEntry(supports, attributes, skip), LineStyleEntry(supports, attributes, skip);
    var width, color := WidthEntry(supports, attributes, skip), ColorEntry(supports, attributes, skip);
    TopLevelKeysAppend(radius, style);
    TopLevelKeysAppend(radius + style, width);
    TopLevelKeysAppend(radius + style + width, color);
  }

  /** No top-level key names a side. */
  lemma TopLevelKeysNotSides(supports: Value, attributes: PhpArray, skip: SkipQuery)
    ensures forall k :: k in Keys(TopLevelStyles(supports, attributes, skip)) ==> k !in Sides
  {
    TopLevelKeys(supports, attributes, skip);
    TopLevelKeyIsNoSide();
  }

  lemma TopLevelKeyIsNoSide()
    ensures forall k :: IsTopLevelKey(k) ==> k !in Sides
  {
  }

  /** Colour is the last top-level key written, so it is not yet a key when its section runs. */
  lemma ColorNotYetWritten(supports: Value, attributes: PhpArray, skip: SkipQuery)
    ensures "color" !in Keys(RadiusEntry(supports, attributes, skip) + LineStyleEntry(supports, attributes, skip)
                             + WidthEntry(supports, attributes, skip))
  {
    KeysAppend(RadiusEntry(supports, attributes, skip), LineStyleEntry(supports, attributes, skip));
    KeysAppend(RadiusEntry(supports, attributes, skip) + LineStyleEntry(supports, attributes, skip),
               WidthEntry(supports, attributes, skip));
  }

  /** Whether no side appears twice. */
  predicate Distinct(sides: seq<string>) {
    forall a, b :: 0 <= a < b < |sides| ==> sides[a] != sides[b]
  }

  /** Side `i` is not yet a key after the first `i` sides have been written. */
  lemma SideNotYetWritten(styles: PhpArray, attributes: PhpArray, skip: SkipQuery, sides: seq<string>, i: nat)
    requires i < |sides| && Distinct(sides)
    requires forall k :: k in Keys(styles) ==> k !in sides
    ensures sides[i] !in Keys(styles + SideEntriesFor(attributes, skip, sides[..i]))
  {
    SideEntriesForKeys(attributes, skip, sides[..i]);
    KeysAppend(styles, SideEntriesFor(attributes, skip, sides[..i]));
    assert sides[i] in sides;
    assert sides[i] !in sides[..i];
  }

  /** The first `i + 1` sides are the first `i` followed by side `i`. */
  lemma PrefixSnoc(sides: seq<string>, i: nat)
    requires i < |sides|
    ensures sides[..i + 1] == sides[..i] + [sides[i]]
  {
  }

  /** Writing side `i` after the first `i` sides appends its entry. */
  lemma AppendSide(styles: PhpArray, attributes: PhpArray, skip: SkipQuery, sides: seq<string>, i: nat)
    requires i < |sides| && Distinct(sides)
    requires forall k :: k in Keys(styles) ==> k !in sides
    ensures Put(styles + SideEntriesFor(attributes, skip, sides[..i]), sides[i], SideStyles(attributes, skip, sides[i]))
            == styles + SideEntriesFor(attributes, skip, sides[..i + 1])
  {
    var done := SideEntriesFor(attributes, skip, sides[..i]);
    var entry := (sides[i], SideStyles(attributes, skip, sides[i]));
    SideNotYetWritten(styles, attributes, skip, sides, i);
    PrefixSnoc(sides, i);
    assert Put(styles + done, sides[i], entry.1) == (styles + done) + [entry];
    SideEntriesForSnoc(attributes, skip, sides[..i], sides[i]);
    assert (styles + done) + [entry] == styles + (done + [entry]);
  }

  /** The radius section, run first on the empty record. */
  method ResolveRadius(styles: PhpArray, supports: Value, attributes: PhpArray, skip: SkipQuery)
    returns (styles': PhpArray)
    requires styles == []
    ensures styles' == RadiusEntry(supports, attributes, skip)
  {
    styles' := styles;
    if Gate(supports, attributes, skip, "radius") {
      var radius := BorderAttribute(attributes, "radius");
      if IsNumeric(radius) {
        radius := Str(ToPhpString(radius) + "px");
      }
      styles' := Put(styles', "radius", radius);
    }
  }

  /** The line-style section, run after the radius section. */
  method ResolveLineStyle(styles: PhpArray, supports: Value, attributes: PhpArray, skip: SkipQuery)
    returns (styles': PhpArray)
    requires styles == RadiusEntry(supports, attributes, skip)
    ensures styles' == RadiusEntry(supports, attributes, skip) + LineStyleEntry(supports, attributes, skip)
  {
    styles' := styles;
    if Gate(supports, attributes, skip, "style") {
      styles' := Put(styles', "style", BorderAttribute(attributes, "style"));
    }
  }

  /** The width section, run after the line-style section. */
  method ResolveWidth(styles: PhpArray, supports: Value, attributes: PhpArray, skip: SkipQuery)
    returns (styles': PhpArray)
    requires styles == RadiusEntry(supports, attributes, skip) + LineStyleEntry(supports, attributes, skip)
    ensures styles' == RadiusEntry(supports, attributes, skip) + LineStyleEntry(supports, attributes, skip)
                       + WidthEntry(supports, attributes, skip)
  {
    styles' := styles;
    if Gate(supports, attributes, skip, "width") {
      var width := BorderAttribute(attributes, "width");
      if IsNumeric(width) {
        width := Str(ToPhpString(width) + "px");
      }
      KeysAppend(RadiusEntry(supports, attributes, skip), LineStyleEntry(supports, attributes, skip));
      styles' := Put(styles', "width", width);
    }
  }

  /**
   * The colour section, run after the width section: when colour is
   * supported and not skipped, the `color` key is always written, with the
   * preset reference if there is one and the custom colour (possibly null)
   * otherwise.
   */
  method ResolveColor(styles: PhpArray, supports: Value, attributes: PhpArray, skip: SkipQuery)
    returns (styles': PhpArray)
    requires styles == RadiusEntry(supports, attributes, skip) + LineStyleEntry(supports, attributes, skip)
                       + WidthEntry(supports, attributes, skip)
    ensures styles' == TopLevelStyles(supports, attributes, skip)
  {
    styles' := styles;
    if HasBorderFeatureSupport(supports, "color", false) && !skip(BorderSupportKey, Some("color")) {
      var preset := Null;
      if "borderColor" in Keys(attributes) {
        preset := Str("var:preset|color|" + ToPhpString(Lookup(attributes, "borderColor").value));
      }
      var custom := WpArrayGet(Arr(attributes), BorderPath("color"), Null);
      ColorNotYetWritten(supports, attributes, skip);
      assert (if Truthy(preset) then preset else custom) == BorderColor(attributes);
      styles' := Put(styles', "color", if Truthy(preset) then preset else custom);
    }
  }

  /** The four side entries, appended in side order. */
  method ResolveSides(styles: PhpArray, supports: Value, attributes: PhpArray, skip: SkipQuery)
    returns (styles': PhpArray)
    requires styles == TopLevelStyles(supports, attributes, skip)
    ensures styles' == TopLevelStyles(supports, attributes, skip) + SideEntries(attributes, skip)
  {
    TopLevelKeysNotSides(supports, attributes, skip);
    SidesDistinct();
    styles' := styles;
    for i := 0 to |Sides|
      invariant styles' == styles + SideEntriesFor(attributes, skip, Sides[..i])
    {
      var side := Sides[i];
      var border := WpArrayGet(Arr(attributes), BorderPath(side), Null);
      var values := [
        ("width", SideValue(border, "width", skip)),
        ("color", SideValue(border, "color", skip)),
        ("style", SideValue(border, "style", skip))
      ];
      assert Arr(values) == SideStyles(attributes, skip, side);
      AppendSide(styles, attributes, skip, Sides, i);
      styles' := Put(styles', side, Arr(values));
    }
    assert Sides[..|Sides|] == Sides;
  }

  /**
   * The HTML attributes taken from the engine's output: `class` and `style`,
   * each only when the engine produced a non-empty string for it.
   */
  method CollectAttributes(out: EngineOutput) returns (result: PhpArray)
    ensures Lookup(result, "class") == NonEmpty(out.classnames)
    ensures Lookup(result, "style") == NonEmpty(out.css)
    ensures Keys(result) == (if NonEmpty(out.classnames).Some? then ["class"] else [])
                            + (if NonEmpty(out.css).Some? then ["style"] else [])
  {
    result := [];
    if out.classnames.Some? && Truthy(Str(out.classnames.value)) {
      result := Put(result, "class", Str(out.classnames.value));
    }
    assert Keys(result) == if NonEmpty(out.classnames).Some? then ["class"] else [];
    if out.css.Some? && Truthy(Str(out.css.value)) {
      result := Put(result, "style", Str(out.css.value));
    }
  }

  /**
   * Resolves the block's border attributes into the HTML attributes `class`
   * and `style`, by way of the border style record and the style engine.
   */
  method ApplyBorderSupport(blockType: BlockType, attributes: PhpArray, skip: SkipQuery, engine: StyleEngine)
    returns (result: PhpArray)
    ensures skip("border", None) ==> result == []
    ensures !skip("border", None) ==>
      var out := engine(Arr([("border", Arr(BorderStyles(blockType.supports, attributes, skip)))]), EngineOptions);
      && Lookup(result, "class") == NonEmpty(out.classnames)
      && Lookup(result, "style") == NonEmpty(out.css)
      && Keys(result) == (if NonEmpty(out.classnames).Some? then ["class"] else [])
                         + (if NonEmpty(out.css).Some? then ["style"] else [])
  {
    if skip("border", None) {
      return [];
    }

    var supports := blockType.supports;
    var styles: PhpArray := [];
    var hasBorderColorSupport := HasBorderFeatureSupport(supports, "color", false);
    var hasBorderWidthSupport := HasBorderFeatureSupport(supports, "width", false);

    styles := ResolveRadius(styles, supports, attributes, skip);
    styles := ResolveLineStyle(styles, supports, attributes, skip);
    styles := ResolveWidth(styles, supports, attributes, skip);
    styles := ResolveColor(styles, supports, attributes, skip);
    if hasBorderColorSupport || hasBorderWidthSupport {
      styles := ResolveSides(styles, supports, attributes, skip);
    } else {
      assert styles == styles + [];
    }

    var out := engine(Arr([("border", Arr(styles))]), EngineOptions);
    result := CollectAttributes(out);
  }
}
