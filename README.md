# Array fills, shared empty lists and locale selection, in Dafny

This project models three small demonstration programs of a Java helpers
repository and proves what the library calls they demonstrate promise.

- **ComparisonFillAndSetAllMethods** (module `ArrayFill`, trace in `FillDemo`):
  `Arrays.fill(a, v)`, `Arrays.fill(a, from, to, v)` and `Arrays.setAll(a, gen)`
  as methods over Dafny arrays. Each method is proved against a function on the
  array contents (`Filled`, `SetAllFrom`). Lemmas state which positions change,
  which do not, and what a generator that ignores the array or reads its own
  position produces. The `setAll` generator is modelled as a function of
  (current contents, index). This captures the demonstration's
  `value -> stringArray[value].toUpperCase()`, which reads the array it is
  writing. `SetAllAt` and `SetAllUnique` together characterise the ascending
  evaluation order completely. `FillDemo` replays `main` array by array and
  states the exact contents after every call.
- **EmptyListComparison** (module `EmptyLists`): `java.util.List` objects as a
  class with their elements and whether `add` is supported. The static state of
  `java.util.Collections` is a class whose `EMPTY_LIST` is a `const` reference,
  assigned once. `emptyList()` returns that same reference. The three checks of
  the demonstration are modelled, and `EmptyListTrace` replays `main`'s checks.
- **localization/Main** (module `Localization`): `getLocale` as a pure function
  over the argument list and a default `Locale(language, country)`, the
  `Translation` enum with `name`, and the two bundle lookups of `main`.

The ranged fill runs the library's range check before it writes. It reports
`IllegalArgument` when `from > to` and `IndexOutOfBounds` when `from < 0` or
`to > length`, and then leaves the array unchanged. The demonstration never
passes a bad range, but the model keeps that error path rather than forbidding it.

## Model

| member | source | states |
|---|---|---|
| `ArrayFill.CheckRange` | src/main/java/com/epam/prejap/ess/helpers/arrays/ComparisonFillAndSetAllMethods.java:31 | the ranged fill's check passes exactly when 0 <= from <= to <= length, and it is an IllegalArgument error exactly when from > to |
| `ArrayFill.Filled` | src/main/java/com/epam/prejap/ess/helpers/arrays/ComparisonFillAndSetAllMethods.java:31 | a ranged fill keeps the length, puts v at every index in [from, to) and leaves every other index as it was |
| `ArrayFill.FilledIff` | src/main/java/com/epam/prejap/ess/helpers/arrays/ComparisonFillAndSetAllMethods.java:31 | a sequence is the result of the ranged fill if and only if it has the same length, v inside the range and the old values outside it |
| `ArrayFill.FilledWhole` | src/main/java/com/epam/prejap/ess/helpers/arrays/ComparisonFillAndSetAllMethods.java:27 | filling [0, length) leaves every element equal to v |
| `ArrayFill.FilledEmptyRange` | src/main/java/com/epam/prejap/ess/helpers/arrays/ComparisonFillAndSetAllMethods.java:31 | a range with from == to changes nothing |
| `ArrayFill.FilledOverwrites` | src/main/java/com/epam/prejap/ess/helpers/arrays/ComparisonFillAndSetAllMethods.java:31 | a general fact about ranged fills: a fill over a range that covers an earlier fill's range erases the earlier fill |
| `ArrayFill.FilledIdempotent` | src/main/java/com/epam/prejap/ess/helpers/arrays/ComparisonFillAndSetAllMethods.java:31 | repeating a ranged fill with the same value changes nothing more |
| `ArrayFill.Fill` | src/main/java/com/epam/prejap/ess/helpers/arrays/ComparisonFillAndSetAllMethods.java:27 | Arrays.fill(a, v) leaves every element equal to v, which is the ranged fill over the whole array |
| `ArrayFill.FillRange` | src/main/java/com/epam/prejap/ess/helpers/arrays/ComparisonFillAndSetAllMethods.java:31 | Arrays.fill(a, from, to, v) returns the range check's verdict; on success the contents are Filled(old contents, from, to, v); on a bad range they are unchanged |
| `ArrayFill.SetAllFrom` | src/main/java/com/epam/prejap/ess/helpers/arrays/ComparisonFillAndSetAllMethods.java:54 | setAll keeps the length, and positions before the one being processed are never revisited |
| `ArrayFill.SetAllAt` | src/main/java/com/epam/prejap/ess/helpers/arrays/ComparisonFillAndSetAllMethods.java:61 | each element setAll writes is the generator applied to the new values below its index and the old values from its index on, i.e. ascending order |
| `ArrayFill.SetAllUnique` | src/main/java/com/epam/prejap/ess/helpers/arrays/ComparisonFillAndSetAllMethods.java:61 | conversely, any sequence whose elements are all computed that way is the setAll result |
| `ArrayFill.SetAllByIndex` | src/main/java/com/epam/prejap/ess/helpers/arrays/ComparisonFillAndSetAllMethods.java:54 | with a generator that ignores the array, element i becomes g(i) and all previous contents are discarded |
| `ArrayFill.SetAllElementwise` | src/main/java/com/epam/prejap/ess/helpers/arrays/ComparisonFillAndSetAllMethods.java:61 | with a generator that reads only its own position, element i becomes f(old element i) |
| `ArrayFill.SetAll` | src/main/java/com/epam/prejap/ess/helpers/arrays/ComparisonFillAndSetAllMethods.java:54 | Arrays.setAll(a, gen) leaves the contents SetAllFrom(old contents, gen, 0) |
| `FillDemo.IntArrayTrace` | src/main/java/com/epam/prejap/ess/helpers/arrays/ComparisonFillAndSetAllMethods.java:25-31 | `array` is thirteen 12s after the whole fill, then [12,12,12,33,33,33,33,33,12,12,12,12,12] |
| `FillDemo.CharArrayTrace` | src/main/java/com/epam/prejap/ess/helpers/arrays/ComparisonFillAndSetAllMethods.java:34-36 | `charArray` becomes ['e','e','e','m'] |
| `FillDemo.StringArrayTrace` | src/main/java/com/epam/prejap/ess/helpers/arrays/ComparisonFillAndSetAllMethods.java:40-61 | `stringArray` becomes ["Kasia","Monika","Miś","Miś","Łukasz"], then each of those names passed through the case conversion |
| `FillDemo.TensTrace` | src/main/java/com/epam/prejap/ess/helpers/arrays/ComparisonFillAndSetAllMethods.java:52-54 | `array2` becomes [10,20,...,120] whatever it held before |
| `FillDemo.SquaresTrace` | src/main/java/com/epam/prejap/ess/helpers/arrays/ComparisonFillAndSetAllMethods.java:57-58 | `array3` becomes [0,1,4,...,81] (over int) |
| `EmptyLists.SameElements` | src/main/java/com/epam/prejap/ess/helpers/collections/EmptyListComparison.java:201-203 | the element-by-element walk of List.equals answers true exactly when the two lists have the same elements in the same order |
| `EmptyLists.JavaList.Equals` | src/main/java/com/epam/prejap/ess/helpers/collections/EmptyListComparison.java:201-203 | two lists are equal exactly when their element sequences are equal |
| `EmptyLists.JavaList.Size` | src/main/java/com/epam/prejap/ess/helpers/collections/EmptyListComparison.java:195 | size() returns the number of elements the list holds |
| `EmptyLists.JavaList.Add` | src/main/java/com/epam/prejap/ess/helpers/collections/EmptyListComparison.java:175 | add succeeds exactly when the list supports it; otherwise it reports UnsupportedOperation and the elements are unchanged |
| `EmptyLists.JavaObject.constructor` | src/main/java/com/epam/prejap/ess/helpers/collections/EmptyListComparison.java:175 | `new Object()` gives an object distinct from every object that existed before |
| `EmptyLists.JavaList.Empty` | src/main/java/com/epam/prejap/ess/helpers/collections/EmptyListComparison.java:27-34 | the `new EmptyList` behind EMPTY_LIST has no elements, and add is unsupported on it |
| `EmptyLists.Collections.constructor` | src/main/java/com/epam/prejap/ess/helpers/collections/EmptyListComparison.java:24-41 | EMPTY_LIST is created once, empty and without add support |
| `EmptyLists.Collections.EmptyList` | src/main/java/com/epam/prejap/ess/helpers/collections/EmptyListComparison.java:57-68 | emptyList() returns the EMPTY_LIST reference itself, which is empty and rejects add |
| `EmptyLists.CheckIfBothListsAreEmpty` | src/main/java/com/epam/prejap/ess/helpers/collections/EmptyListComparison.java:194-196 | both access paths always have size 0 |
| `EmptyLists.CheckIfBothListsAreEquals` | src/main/java/com/epam/prejap/ess/helpers/collections/EmptyListComparison.java:201-203 | EMPTY_LIST.equals(emptyList()) is always true |
| `EmptyLists.CheckIfListIsImmutable` | src/main/java/com/epam/prejap/ess/helpers/collections/EmptyListComparison.java:173-180 | the list is reported immutable exactly when add is unsupported; then it is left unchanged, otherwise it grew by one, kept its old elements and ends with the newly created object |
| `EmptyLists.EmptyListTrace` | src/main/java/com/epam/prejap/ess/helpers/collections/EmptyListComparison.java:74-97 | in main, both lists are equal and empty, repeated emptyList() calls give the EMPTY_LIST reference, both reject add, and the shared list still has size 0 |
| `Localization.GetLocale` | src/main/java/com/epam/prejap/ess/localization/Main.java:32-41 | no arguments keep the given locale; otherwise the language is args[0], and the country is "" for one argument and args[1] for two or more |
| `Localization.ExtraArgumentsIgnored` | src/main/java/com/epam/prejap/ess/localization/Main.java:36-37 | arguments after the second never change the result |
| `Localization.DefaultKeptIff` | src/main/java/com/epam/prejap/ess/localization/Main.java:33-40 | the default locale is returned for every default exactly when there are no arguments |
| `Localization.Name` | src/main/java/com/epam/prejap/ess/localization/Main.java:28-29 | name() of a Translation constant is its declared identifier, GREETING or FAREWELL, and the two constants have different names |
| `Localization.MainOutput` | src/main/java/com/epam/prejap/ess/localization/Main.java:21-29 | main prints the bundle's GREETING text and then its FAREWELL text, in the locale chosen by getLocale |

## Left out

- Console output (`println`, `printf`, `Arrays.toString`) in all three programs; the traces return the values that are printed instead. The `listSourceName` argument of `checkIfListIsImmutable` is only printed, so it is dropped.
- `FillDemo.SquaresTrace`: the demonstration's `double[]` is restated over `int`. Floating point is not modelled; the values 0..81 are exact in both.
- `FillDemo.StringArrayTrace`: `String.toUpperCase` is the parameter `upper`. Unicode case mapping is not modelled.
- `ArrayFill.SetAll`: the generator is a total Dafny function, so a generator that throws, and the partial update left behind by it, is not modelled.
- `ArrayFill.FillRange`: the range check follows the library's documented order of tests; the exception messages are not modelled.
- The `instanceof List`, `instanceof List<Object>` and `Serializable` checks, raw versus generic types and the commented-out compile error of EmptyListComparison: they are type-system facts with no run-time behaviour. Generic types are erased, so every list holds `object`s.
- `EmptyLists.JavaList.Equals`: elements are compared by reference identity, where Java calls `equals()` on them, and the empty list's own `equals` override (the argument is a List and is empty) is modelled by the general element-by-element List.equals. The two agree on every list the model builds.
- The private `EMPTY_LIST` field and `emptyList()` of EmptyListComparison itself (lines 41 and 66-68) only copy the `Collections` ones; they are modelled through `EmptyLists.Collections`.
- `EmptyLists.JavaList`: its `elements` field could in principle be assigned by other Dafny code, while the JDK's empty list has no state at all; only `Add` writes it here.
- Thread safety and lazy initialisation of the shared empty list: the model is sequential.
- `Locale.getDefault`, `ResourceBundle.getBundle` and `getString`: the default locale is an input, and the bundle lookup is the parameter `lookup`.
- The `Locale` constructors' normalisation of language and country codes. The `Locale` record keeps only language and country, so the script and variant that the default locale may carry are dropped.
