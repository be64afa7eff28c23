# fxFlexOrder: order style resolution

This project models the logic of the `fxFlexOrder` directive of Angular Flex-Layout
(`src/lib/flex/flex-order/flex-order.ts`). The directive turns a responsive "flex order"
input into the CSS `order` style. The model covers three parts of that file:

- `FlexOrderStyleBuilder.buildStyles(value)`: it applies `parseInt(value, 10)` and uses 0
  when the result is NaN. The result is the one-key style object `{order: n}`.
  `parseInt` with radix 10 is modelled as ECMA-262 section 19.2.5 defines it:
  - strip leading StrWhiteSpaceChar characters;
  - take an optional `+` or `-`;
  - take the longest run of ASCII digits;
  - an empty run gives NaN.
- `FlexOrderDirective._updateWithValue(value?)`: it chooses the string passed to
  `addStyles`. The choice is a chain of JavaScript `||`, in which `undefined` and `""` are
  both falsy. It takes the explicit value, else the cached base input `order`, else `'0'`.
  An existing media-query activation overrides all of these with its `activatedInput`.
  A final `|| ''` makes the result always a string.
- `FlexOrderDirective.ngOnChanges(changes)`: it updates only when the `order` input changed
  or an activation exists.

Files:

- `wrappers.dfy`: `Option`, where `None` stands for `undefined` (or NaN).
- `js_parse_int.dfy`: module `JsParseInt`. It holds `parseInt(s, 10)` as `ParseInt10` on
  unbounded integers, and the decimal rendering `IntToDecimal` that `String(n)` gives
  for a safe integer.
  - Every string is proved to have one of two shapes. Either it is white space, a sign and
    a digit run, and parses to the signed run. Or it has no such run and parses to NaN.
  - The rendering of every integer parses back to that integer.
- `flex_order.dfy`: module `FlexOrder`. It holds `BuildStyles`, the `||` resolution
  `AddStylesArgument`, the `ngOnChanges` guard `ShouldUpdate`, and the class
  `FlexOrderDirective`.
  - The class methods `UpdateWithValue` and `NgOnChanges` follow the source step by step.
  - They record each `addStyles` argument in the field `addStylesCalls`.

The style object is the datatype `Styles(order: int)`, so it has exactly the one key
`order`. `BuildStyles` is a function of its argument alone, so it reads and writes no
state.

The activation test at lines 106-108 checks only whether `_mqActivation` exists. When it
exists, its `activatedInput` is used even if that is empty or `undefined`. The `|| ''` at
line 110 then turns it into `''`, and `order` is 0. The explicit value and the cached input
are never used as a fallback (`EmptyActivationGivesZero`).

## Model

| member | source | states |
|---|---|---|
| `JsParseInt.ParseInt10` | src/lib/flex/flex-order/flex-order.ts:30 | the definition of `parseInt(s, 10)`: trim leading StrWhiteSpaceChar characters, take one optional `+` or `-`, read the longest run of ASCII digits; `None` (NaN) when that run is empty, else the run's value, negated after `-` |
| `JsParseInt.SplitWhiteSpace` | src/lib/flex/flex-order/flex-order.ts:30 | parseInt's trimming step removes exactly a leading run of StrWhiteSpaceChar characters; the rest does not start with white space |
| `JsParseInt.SplitLeadingDigits` | src/lib/flex/flex-order/flex-order.ts:30 | parseInt's digit step takes a prefix of ASCII digits, and the character after it (if any) is not a digit: the run is the longest one |
| `JsParseInt.ParseIntOfNumeric` | src/lib/flex/flex-order/flex-order.ts:30 | white space, an optional sign and a non-empty digit run parse to the signed value of the run, whatever follows it |
| `JsParseInt.ParseIntOfNonNumeric` | src/lib/flex/flex-order/flex-order.ts:30 | white space, an optional sign and then no digit parse to NaN |
| `JsParseInt.ParseIntSomeShape` | src/lib/flex/flex-order/flex-order.ts:30 | every string that parses to a number is white space + sign + longest digit run + rest, and its value is the signed run (converse of ParseIntOfNumeric) |
| `JsParseInt.ParseIntNoneShape` | src/lib/flex/flex-order/flex-order.ts:30 | every string that parses to NaN is white space + optional sign + a rest with no leading digit (converse of ParseIntOfNonNumeric) |
| `JsParseInt.ParseIntRoundTrip` | src/lib/flex/flex-order/flex-order.ts:30 | parseInt(String(n), 10) == n for every integer n |
| `FlexOrder.BuildStyles` | src/lib/flex/flex-order/flex-order.ts:29-33 | the definition of `buildStyles`: the style `{order: n}` where n is `ParseInt10(value)`, or 0 when that is NaN |
| `FlexOrder.BuildStylesOfNumeric` | src/lib/flex/flex-order/flex-order.ts:29-33 | a numeric value gives the style `{order: signed digit run}`; trailing text such as `px` is ignored |
| `FlexOrder.BuildStylesOfNonNumeric` | src/lib/flex/flex-order/flex-order.ts:29-33 | a value with no digit after white space and sign gives `{order: 0}` |
| `FlexOrder.BuildStylesCases` | src/lib/flex/flex-order/flex-order.ts:29-33 | every value gives `order` 0 or the signed leading digit run of a numeric decomposition: buildStyles never fails and never yields NaN |
| `FlexOrder.BuildStylesRoundTrip` | src/lib/flex/flex-order/flex-order.ts:30-31 | buildStyles of the decimal rendering of n has `order` n |
| `FlexOrder.UnitSuffixExample` | src/lib/flex/flex-order/flex-order.ts:30-31 | `"2px"` gives `order` 2 |
| `FlexOrder.NegativeExample` | src/lib/flex/flex-order/flex-order.ts:30-31 | `"  -3"` gives `order` -3 |
| `FlexOrder.FractionExample` | src/lib/flex/flex-order/flex-order.ts:30-31 | `"3.7"` gives `order` 3 |
| `FlexOrder.HexPrefixExample` | src/lib/flex/flex-order/flex-order.ts:30-31 | `"0x10"` gives `order` 0, since radix 10 reads no hex prefix |
| `FlexOrder.LeadingZerosExample` | src/lib/flex/flex-order/flex-order.ts:30-31 | tab, line feed and no-break space then `+007` give `order` 7 |
| `FlexOrder.EmptyExample` | src/lib/flex/flex-order/flex-order.ts:30-31 | `""` gives `order` 0 |
| `FlexOrder.WordExample` | src/lib/flex/flex-order/flex-order.ts:30-31 | `"abc"` gives `order` 0 |
| `FlexOrder.BareSignExample` | src/lib/flex/flex-order/flex-order.ts:30-31 | `"-"` gives `order` 0 |
| `FlexOrder.SignThenSpaceExample` | src/lib/flex/flex-order/flex-order.ts:30-31 | `"- 3"` gives `order` 0: no white space may follow the sign |
| `FlexOrder.AddStylesArgument` | src/lib/flex/flex-order/flex-order.ts:104-110 | with an activation the argument is its `activatedInput`, or `''` when that is empty or undefined; without one it is the non-empty explicit value, else the non-empty cached `order`, else `'0'`, and never empty |
| `FlexOrder.ActivationOverridesInputs` | src/lib/flex/flex-order/flex-order.ts:106-108 | when an activation exists, the argument does not depend on the explicit value or the cached input |
| `FlexOrder.EmptyActivationGivesZero` | src/lib/flex/flex-order/flex-order.ts:106-110 | an activation with an empty or undefined `activatedInput` makes `''` the argument, which gives `order` 0 |
| `FlexOrder.ExplicitValueApplied` | src/lib/flex/flex-order/flex-order.ts:105-110 | without an activation, an explicit rendering of n is applied as `order` n, whatever is cached |
| `FlexOrder.CachedValueApplied` | src/lib/flex/flex-order/flex-order.ts:105-110 | without an activation and with a falsy explicit value, the cached rendering of n is applied as `order` n |
| `FlexOrder.DefaultOrderApplied` | src/lib/flex/flex-order/flex-order.ts:105-110 | without an activation, explicit value or cached input, `order` is 0 |
| `FlexOrder.ActivationPrecedenceExample` | src/lib/flex/flex-order/flex-order.ts:105-110 | activated `'3'` beats explicit `'1'` and cached `'2'`: `order` is 3 |
| `FlexOrder.ShouldUpdate` | src/lib/flex/flex-order/flex-order.ts:83 | the definition of the `ngOnChanges` guard: true when `order` is among the changed inputs or an activation exists |
| `FlexOrder.OnlySuffixedChangesDoNotUpdate` | src/lib/flex/flex-order/flex-order.ts:82-86 | when only breakpoint-suffixed inputs changed, an update happens exactly when an activation exists; a change of `order` always triggers one |
| `FlexOrder.FlexOrderDirective.UpdateWithValue` | src/lib/flex/flex-order/flex-order.ts:104-111 | appends exactly one `addStyles` call, whose argument is the resolved value `AddStylesArgument`, and changes nothing else |
| `FlexOrder.FlexOrderDirective.NgOnChanges` | src/lib/flex/flex-order/flex-order.ts:82-86 | makes one update, with no explicit value, exactly when `ShouldUpdate` holds (`order` changed or an activation exists), and no call otherwise |

## Left out

- Angular decorators, dependency injection and the selector list (lines 27, 41-46) are framework wiring with no behaviour to state.
- The 14 `@Input` setters, `_cacheInput` and `_queryInput` (lines 50-65) store into `BaseDirective`, which is not part of this model. The cached base input is the field `cachedOrder`. The inputs of the thirteen suffixed setters appear only as property names in `SuffixedInputs`.
- `ngOnInit` and its media-query listener (lines 92-98) are left out. So are `MediaMonitor`, `MediaChange` and breakpoint matching. These are event plumbing in base classes outside this model. The activation is a given `Option<MediaQueryActivation>`.
- `addStyles`, `StyleUtils` and the DOM write are foreign calls. The model records only the string each `addStyles` call receives.
- The shared `flexOrderCache` map (lines 113, 116) is read and written inside the base class's `addStyles`, which is outside this model. No claim about object identity or memoisation is made.
- `SimpleChanges` is modelled as the set of input names whose entry is not null. The contents of a `SimpleChange` are not used by the guard.
- `FlexOrder.BuildStyles`: results are unbounded mathematical integers. JavaScript `Number` loses precision beyond 2^53, and `parseInt("-0", 10)` gives `-0`. A digit run above about 1.8 × 10^308 makes `parseInt` return `Infinity`, which is not NaN, so line 31 gives `{order: Infinity}`. All three are floating-point behaviour. The model gives the exact value, `0` and the exact finite value.
- `JsParseInt.IntToDecimal`: this is plain decimal notation. `String(n)` switches to exponent notation for magnitudes of 10^21 and more. The round trip is stated for the plain rendering.
- Characters are Unicode scalar values rather than UTF-16 code units. This makes no difference here, since no white space or digit lies outside the Basic Multilingual Plane.
