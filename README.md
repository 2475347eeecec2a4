# Border block support, modelled in Dafny

This project models the server side of Gutenberg's border block support
(`lib/block-supports/border.php`). It covers three operations:

- **Registrar** (`gutenberg_register_border_support`). For a block type with
  border support, it adds the `style` attribute to the block type's
  attribute schema. For a block type with border colour support, it also
  adds `borderColor`. An entry that is already there is never overwritten.
- **Style resolver** (`gutenberg_apply_border_support`). It turns a block's
  attributes into a border style record, adding entries key by key:
  - `radius`, `style` and `width`, each only when the feature is supported,
    set in `style.border.*` and not skipped;
  - `color`, whenever colour is supported and not skipped, as the preset
    reference `var:preset|color|<slug>` or else the custom colour, which may
    be null;
  - one entry per side (`top`, `right`, `bottom`, `left`) with its width,
    colour and style, when colour or width is supported.

  A purely numeric radius or width gets `px` appended. The record goes to
  the style engine. The engine's class names and CSS come back as the HTML
  attributes `class` and `style`, each only when it is non-empty.
- **Feature-support predicate** (`gutenberg_has_border_feature_support`).
  A support flag of exactly `true` turns on every border feature. Otherwise
  the nested flag for the feature counts when it is `true` or an array.

Files:

- `wrappers.dfy`: `Option`.
- `php.dfy`: the PHP values and array operations the support relies on.
  Arrays are ordered association lists, and `$a[$k] = $v` replaces an
  existing key in place or appends a new one. It also has `isset`, PHP's
  conversions to boolean and to string, and the WordPress helper
  `_wp_array_get`.
- `numeric.dfy`: PHP 8's `is_numeric` on strings: optional leading and
  trailing whitespace, a sign, digits with an optional fraction, and an
  optional exponent.
- `border.dfy`: the block type as a class with mutable `attributes`, and
  WordPress's `block_has_support` as `Border.BlockHasSupport`. The
  registrar is a method that updates them in place. The resolver is a
  method that builds the record section by section, with the `foreach`
  over the sides as a loop. Each section is proved equal to a pure
  specification function, and `BorderStyles` specifies the whole record.
- `border_properties.dfy`: properties of those specifications. They cover
  each key's gate, the `px` rule, colour precedence, the per-side entries,
  key order, the support predicate, registrar idempotence, and the worked
  example of a cyan border.

Two details of the code shape the model:

- The per-side width, colour and style (`border.php:112-114`) are not gated
  on support for the sub-feature. Each is written when it is set and not
  skipped, so `Border.SideValue` does not consult support.
- The support flag is read under the key `__experimentalBorder`
  (`Border.BorderSupportKey`), and each per-feature skip query names that
  key. The whole-border skip query at `border.php:47` names `'border'`
  instead, and `Border.ApplyBorderSupport` asks it with that name.

## Model

| member | source | states |
|---|---|---|
| Php.Put | lib/block-supports/border.php:69 | Writing `$a[$k] = $v`: afterwards `k` reads `v` and every other key reads as before. An existing key keeps its position. A new key is appended at the end. |
| Php.Lookup | lib/block-supports/border.php:102 | `array_key_exists`: a key reads a value exactly when it is one of the array's keys, and the value is the one stored with it. |
| Php.Walk | lib/block-supports/border.php:110 | Following a path: an empty path finds the value itself, a step from a non-array finds nothing, a value is found only if the first key exists, and a single step from an array is `Lookup` of that key. |
| Php.WalkAppend | lib/block-supports/border.php:110 | Following `p + q` is following `p` and then `q` from the value found. A missing step ends the walk with nothing. |
| Php.WpArrayGet | lib/block-supports/border.php:103 | `_wp_array_get`: the default for an empty path or a non-array. For one key, the key's value if the key exists, else the default. For a longer path, `_wp_array_get` of the rest from the first key's value, or the default when that key is missing. |
| Php.IsSet | lib/block-supports/border.php:60 | `isset` on a non-empty path holds exactly when `_wp_array_get` with a null default finds a non-null value there. |
| Php.Truthy | lib/block-supports/border.php:104 | Truthiness of a scalar: false exactly when its text is "" or "0", so for null, `false`, 0, "" and "0". |
| Php.ToPhpString | lib/block-supports/border.php:66 | Conversion to string gives the empty string exactly for null, `false` and "". |
| PhpNumeric.IsNumeric | lib/block-supports/border.php:65 | `is_numeric`: every integer is numeric. A numeric value is an integer or a string, and its text is a numeric string. A string ending in a unit letter or `%` is never numeric. |
| PhpNumeric.NumericStringEnding | lib/block-supports/border.php:65 | A string that `is_numeric` accepts is non-empty and ends in a digit, a decimal point or whitespace. |
| PhpNumeric.UnitSuffixNotNumeric | lib/block-supports/border.php:90 | A value ending in a unit letter or `%` ("10px", "2em", "50%") is never numeric, so it never gets a second unit. |
| PhpNumeric.IntToStringIsNumeric | lib/block-supports/border.php:65 | The decimal text of any integer is a numeric string. |
| PhpNumeric.IntegerStringIsNumeric | lib/block-supports/border.php:90 | "10" is numeric. |
| PhpNumeric.ExponentStringIsNumeric | lib/block-supports/border.php:90 | "-1.5e3" (sign, fraction, exponent) is numeric. |
| PhpNumeric.PaddedFractionIsNumeric | lib/block-supports/border.php:90 | " .5 " (leading and trailing whitespace, a bare fraction) is numeric. |
| PhpNumeric.NonNumericExamples | lib/block-supports/border.php:65 | "10px", "2em", "10%", "", "." and "1e" are not numeric. |
| Border.BlockHasSupport | lib/block-supports/border.php:16 | `block_has_support` on a non-empty path holds iff the flag there is `true` or an array, or the flag is missing and the default holds. |
| Border.FeatureSupportNeedsBorderSupport | lib/block-supports/border.php:149-161 | A border feature is supported only if the block type has border support (`block_has_support` on the border flag). |
| Border.HasBorderFeatureSupport | lib/block-supports/border.php:149-161 | A border flag of exactly `true` supports every feature. Otherwise a feature is supported iff its nested flag is `true` or an array, and `default` applies when the flag is missing. |
| Border.RegisteredSchema | lib/block-supports/border.php:14-35 | A null schema starts empty and existing entries keep their positions. `style` is added iff border is supported and it is missing. `borderColor` is added iff colour is supported and it is missing. Every other key reads as before. The keys are the old keys, then `style` if it was added, then `borderColor` if it was added. |
| Border.AddIfMissing | lib/block-supports/border.php:24-34 | Registering one attribute: the old schema is kept as a prefix. The key is appended iff it is to be added and is missing. An existing key keeps its value, and no other key changes. |
| Border.RegisterBorderSupport | lib/block-supports/border.php:14-35 | Updates the block type's attribute schema in place to `RegisteredSchema` of its old schema. |
| Border.Gate | lib/block-supports/border.php:58-62 | A top-level value passes its gate only when the block type has border support and the attribute is set to a non-null value. |
| Border.WithPxUnit | lib/block-supports/border.php:65-67 | The result is never numeric. It is the value itself, or, for a numeric value, its text followed by `px`. |
| Border.BorderColor | lib/block-supports/border.php:102-104 | With a `borderColor` key, the colour is `var:preset|color|<slug>` whatever the custom colour is. Without one, it is `style.border.color`, possibly null. |
| Border.SideValue | lib/block-supports/border.php:112-114 | A side's value is null exactly when it is unset or skipped. Otherwise it is the value stored under that key. |
| Border.SideStyles | lib/block-supports/border.php:111-115 | A side entry is an array with the keys `width`, `color` and `style`, in that order. |
| Border.BorderStyles | lib/block-supports/border.php:51-118 | The record's keys are the top-level keys written, each one of radius, style, width and colour, followed by the four sides exactly when colour or width is supported. |
| Border.ResolveRadius | lib/block-supports/border.php:57-70 | The radius section leaves exactly the radius entry: present iff the gate passes, with `px` added to a numeric value. |
| Border.ResolveLineStyle | lib/block-supports/border.php:72-79 | The line-style section appends exactly the line-style entry, unchanged, iff its gate passes. |
| Border.ResolveWidth | lib/block-supports/border.php:81-95 | The width section appends exactly the width entry, with `px` added to a numeric value, iff its gate passes. |
| Border.ResolveColor | lib/block-supports/border.php:97-105 | The colour section appends the colour entry whenever colour is supported and not skipped. Its value is the preset reference if there is one, else the custom colour. |
| Border.ResolveSides | lib/block-supports/border.php:107-118 | The side loop appends one entry per side, in the order top, right, bottom, left. Each entry holds that side's width, colour and style. |
| Border.AppendSide | lib/block-supports/border.php:116 | Writing a side that is not yet a key appends its entry after the sides already written (the loop step). |
| Border.NonEmpty | lib/block-supports/border.php:124-129 | `! empty( $s )` for the engine's output: a string is kept iff it exists and is neither "" nor "0". |
| Border.CollectAttributes | lib/block-supports/border.php:120-132 | The HTML attributes hold `class` iff the engine's class names are non-empty, and `style` iff its CSS is non-empty, with those values and in that order. |
| Border.ApplyBorderSupport | lib/block-supports/border.php:46-133 | If the whole border support is skipped the result is empty. Otherwise the engine is called on `BorderStyles` with `css_vars`, and `class`/`style` are exactly its non-empty outputs. |
| BorderProperties.WithPxUnitIdempotent | lib/block-supports/border.php:89-92 | Adding the unit is idempotent: applying the rule twice gives the same as applying it once. |
| BorderProperties.NumberAndTextAgree | lib/block-supports/border.php:65-67 | An integer and its decimal text both resolve to "<digits>px". |
| BorderProperties.UnitValueKept | lib/block-supports/border.php:90-94 | A value that already ends in a unit is written as it is. |
| BorderProperties.RadiusResolution | lib/block-supports/border.php:58-70 | `radius` is in the record iff radius is supported, `style.border.radius` is set and radius is not skipped. Its value is the attribute with `px` added to a number. |
| BorderProperties.LineStyleResolution | lib/block-supports/border.php:73-79 | `style` is in the record iff line style is supported, set and not skipped, and its value is the attribute unchanged. |
| BorderProperties.WidthResolution | lib/block-supports/border.php:82-95 | `width` is in the record iff width is supported, set and not skipped. Its value is the attribute with `px` added to a number. |
| BorderProperties.ColorResolution | lib/block-supports/border.php:98-105 | `color` is in the record iff colour is supported and not skipped, whatever the attributes hold. A `borderColor` key wins as `var:preset|color|<slug>`, otherwise the custom colour is written, possibly null. |
| BorderProperties.PresetReferenceTruthy | lib/block-supports/border.php:102-104 | A preset reference is never falsy, so it always wins over the custom colour. |
| BorderProperties.SideResolution | lib/block-supports/border.php:108-118 | Each side is in the record iff colour or width is supported. Its width, colour and style are the side's own values when set and not skipped, and null otherwise. Support for the sub-feature is not consulted. |
| BorderProperties.SkippedColorNeverWritten | lib/block-supports/border.php:98-114 | When colour serialization is skipped, there is no `color` key and every side's colour is null. |
| BorderProperties.EmptySideEntries | lib/block-supports/border.php:109-117 | Sides whose entries are all empty give one empty entry per side, in the order of the sides. |
| BorderProperties.UnsetSidesAreNull | lib/block-supports/border.php:108-117 | With no per-side attributes, all four sides are still emitted, with null width, colour and style. |
| BorderProperties.RecordKeyOrder | lib/block-supports/border.php:57-118 | The record's keys are radius, style, width and colour, each when written, followed by the four sides in order when they are written. |
| BorderProperties.NoBorderSupportEmptyRecord | lib/block-supports/border.php:54-118 | A block type without border support (no flag, or a flag that is neither `true` nor an array) resolves to an empty record. |
| BorderProperties.SupportExamples | lib/block-supports/border.php:149-161 | `true` enables every feature. A nested `true` enables only that feature. A nested `false` or a missing flag disables it, unless the default is `true`. |
| BorderProperties.RegisterIdempotent | lib/block-supports/border.php:24-34 | Registering a second time leaves the schema unchanged. |
| BorderProperties.RegisteredColorHasStyle | lib/block-supports/border.php:16-34 | When registration adds `borderColor`, the schema also has `style`. |
| BorderProperties.CyanExample | lib/block-supports/border.php:46-118 | Full support, `borderColor` "cyan", width 2 and radius "10px" give radius "10px", width "2px" and colour `var:preset|color|cyan`, with no line style, then four sides with null values. |

## Left out

- The serialization-skip query (`gutenberg_should_skip_block_supports_serialization`) is not part of this model. It is a parameter of the resolver, a function from a feature set and an optional feature to a boolean.
- The style engine (`gutenberg_style_engine_generate`) is not part of this model. It is a parameter, and its output is typed as optional class names and optional CSS strings. An engine returning values of other types is not modelled.
- `block_has_support` and `_wp_array_get` come from WordPress, outside this repository. They are modelled after their WordPress definitions (`array_key_exists` at each step, arrays only).
- `property_exists( $block_type, 'supports' )` is taken to hold: every block type in the model has a `supports` value.
- A falsy attribute schema other than null or the empty array (`false`, `0`, `""`) is not modelled. The schema is an optional array.
- PHP floats are not modelled. A float radius or width, and its conversion to text, fall outside the `Value` type.
- Array keys are strings only. PHP's integer keys and its key normalisation are not modelled.
- The notice PHP raises when an array is interpolated into the preset reference is not modelled. The text "Array" is used.
- The registration with `WP_Block_Supports` (`border.php:164-170`) is global plumbing run at load time, and is not modelled.
- `packages/block-library/src/column/edit.native.js` is a React Native editor component (rendering, styling and editor-store callbacks) and is not modelled.
- BorderProperties.CyanExample takes the example's inputs as parameters fixed by its precondition, rather than as literals, to keep the proof small.
