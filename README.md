# Exporter factory resolution

A Dafny model of how the exporter component picks the factory that builds
its exporters. It has two parts:

- **ExporterFactoryProvider** returns the application's exporter factory. It looks
  up a fixed key (the provider's class name) in the application-scoped store. On a
  miss it takes the first factory the service loader discovers. If there is none it
  makes the built-in default. It stores the chosen factory under the key and returns
  it. The store is a class `ApplicationMap` with a `map<string, Factory>` field and
  `Get`/`Put` methods. `GetExporterFactory` is an imperative method over it, proved
  against the specification function `Resolve`. A ghost log of the keys written lets
  the contracts say how often the store is written.
- **DefaultExporterFactory** maps a type tag to an exporter. It upper-cases the tag
  and looks it up by exact name in the enumeration {PDF, XLSX}. PDF gives the PDF
  exporter and XLSX the Excel exporter. Any other name is an `UnknownExportType` error
  carrying the upper-cased name. This part is pure: `GetExporterForType` is a function
  returning a result datatype.

Files: `ascii.dfy` (ASCII upper/lower-casing and a case-insensitive equality used as
the reference), `default_exporter_factory.dfy`, `exporter_factory_provider.dfy`.

Inputs that come from outside the core:
- What the service loader yields is a parameter `registered: seq<Factory>`, in
  discovery order.
- The application map of the server context is the `ApplicationMap` object passed in.

## Model

| member | source | states |
|---|---|---|
| Ascii.ToUpper | src/main/java/org/primefaces/extensions/component/exporter/ExporterFactoryProvider.java:72 | upper-casing keeps the length and upper-cases each character in place through `Ascii.UpperChar`, which maps a lower-case ASCII letter to its capital and leaves every other character alone |
| Ascii.ToUpperEqualIff | src/main/java/org/primefaces/extensions/component/exporter/ExporterFactoryProvider.java:72 | two strings have the same upper-cased form if and only if they are equal position by position up to case, where "up to case" is defined through lower-casing |
| Ascii.ToUpperIdempotent | src/main/java/org/primefaces/extensions/component/exporter/ExporterFactoryProvider.java:72 | upper-casing an upper-cased string changes nothing |
| Ascii.ToUpperOfToLower | src/main/java/org/primefaces/extensions/component/exporter/ExporterFactoryProvider.java:72 | lower-casing before upper-casing gives the same upper-cased form |
| DefaultExporterFactory.ValueOf | src/main/java/org/primefaces/extensions/component/exporter/ExporterFactoryProvider.java:62-64 | the enumeration lookup succeeds exactly for the name of a constant, and then returns the constant with that name; `DefaultExporterFactory.Name` gives each constant its declared name, "PDF" or "XLSX" |
| DefaultExporterFactory.ValueOfName | src/main/java/org/primefaces/extensions/component/exporter/ExporterFactoryProvider.java:62-64 | looking up a constant's own name returns that constant |
| DefaultExporterFactory.GetExporterForType | src/main/java/org/primefaces/extensions/component/exporter/ExporterFactoryProvider.java:67-90 | a PDF exporter exactly when the upper-cased tag names PDF; an Excel exporter exactly when it names XLSX; otherwise the unknown-type error carrying the upper-cased tag, which names no constant |
| DefaultExporterFactory.PdfTagIff | src/main/java/org/primefaces/extensions/component/exporter/ExporterFactoryProvider.java:72-77 | a PDF exporter is returned if and only if the tag equals "pdf" up to case |
| DefaultExporterFactory.XlsxTagIff | src/main/java/org/primefaces/extensions/component/exporter/ExporterFactoryProvider.java:72-80 | an Excel exporter is returned if and only if the tag equals "xlsx" up to case |
| DefaultExporterFactory.UnknownTagIff | src/main/java/org/primefaces/extensions/component/exporter/ExporterFactoryProvider.java:72-86 | the error is returned if and only if the tag is neither "pdf" nor "xlsx" up to case; no tag falls back to a default format |
| DefaultExporterFactory.CaseInsensitive | src/main/java/org/primefaces/extensions/component/exporter/ExporterFactoryProvider.java:72 | the result for a tag is the same as for its upper-cased form and for its lower-cased form |
| DefaultExporterFactory.Samples | src/main/java/org/primefaces/extensions/component/exporter/ExporterFactoryProvider.java:67-90 | "pdf", "Pdf", "PDF" give PDF; "xlsx", "XLSX" give Excel; "csv", "", " pdf", "xlsx " are errors (no trimming) |
| ExporterFactoryProvider.ExporterFor | src/main/java/org/primefaces/extensions/component/exporter/ExporterFactoryProvider.java:60-67 | a factory can be asked for an exporter exactly when it is the built-in default, and then the answer is the default dispatch for the tag; a registered factory's answer is not modelled |
| ExporterFactoryProvider.Lookup | src/main/java/org/primefaces/extensions/component/exporter/ExporterFactoryProvider.java:40 | the store read is present exactly for a stored key and then yields the stored factory |
| ExporterFactoryProvider.Discover | src/main/java/org/primefaces/extensions/component/exporter/ExporterFactoryProvider.java:43-51 | the first discovered factory if there is one, else the default factory |
| ExporterFactoryProvider.Resolve | src/main/java/org/primefaces/extensions/component/exporter/ExporterFactoryProvider.java:38-57 | afterwards the key maps to exactly the returned factory; the store gains at most that key and every other key keeps its value; on a miss the result is the default or a discovered factory |
| ExporterFactoryProvider.CacheHit | src/main/java/org/primefaces/extensions/component/exporter/ExporterFactoryProvider.java:40-42 | when the key is present, the stored factory is returned and the store is unchanged, whatever discovery would find |
| ExporterFactoryProvider.FirstRegistrantWins | src/main/java/org/primefaces/extensions/component/exporter/ExporterFactoryProvider.java:43-47 | on a miss the result is the first discovered factory, and later ones make no difference |
| ExporterFactoryProvider.NoRegistrantGivesDefault | src/main/java/org/primefaces/extensions/component/exporter/ExporterFactoryProvider.java:49-53 | on a miss with no factory discovered, the default factory is returned and stored under the key |
| ExporterFactoryProvider.ResolveTwice | src/main/java/org/primefaces/extensions/component/exporter/ExporterFactoryProvider.java:40-56 | resolving again from the resulting store returns the same factory and leaves the store unchanged, even if discovery now finds something else |
| ExporterFactoryProvider.FreshApplication | src/main/java/org/primefaces/extensions/component/exporter/ExporterFactoryProvider.java:38-57 | from an empty store the result holds exactly one entry, the key mapped to the returned factory; with nothing discovered that is the default, and asking the stored factory for "xlsx" gives an Excel exporter |
| ExporterFactoryProvider.ApplicationMap.Get | src/main/java/org/primefaces/extensions/component/exporter/ExporterFactoryProvider.java:40 | reading a key gives what the stored map holds for it, or nothing |
| ExporterFactoryProvider.ApplicationMap.Put | src/main/java/org/primefaces/extensions/component/exporter/ExporterFactoryProvider.java:53 | writing sets that one key and logs one write |
| ExporterFactoryProvider.GetExporterFactory | src/main/java/org/primefaces/extensions/component/exporter/ExporterFactoryProvider.java:38-57 | returns the factory and leaves the store that Resolve gives for the old store; the store is written once on a miss and not at all on a hit |
| ExporterFactoryProvider.GetExporterFactoryTwice | src/main/java/org/primefaces/extensions/component/exporter/ExporterFactoryProvider.java:38-57 | two calls in a row return the same factory, and together they write the store at most once |

## Left out

- Upper-casing is ASCII only. Java's `String.toUpperCase` also maps other Unicode characters and depends on the locale. For example U+017F (long s) upper-cases to "S", so Java accepts "xlſx" as XLSX while this model rejects it.
- The service loader's classpath scan is left out. Only its result is modelled, as the ordered sequence `registered`. A failure during discovery propagates in the source and has no counterpart here.
- The server context lookup chain is reduced to the `ApplicationMap` object. So is the store's type: it holds arbitrary objects in the source, so a foreign value under the key would fail the cast at line 40. The model's store holds only factories.
- Object identity is modelled as value equality of `Factory`. A default factory made on one miss and another made on a later miss are not told apart.
- Concurrency is left out. The unguarded check-then-act between two first calls is not modelled; every call runs alone.
- A null tag is excluded by the types. In the source it throws a null-pointer error at line 72, outside the caught case.
- The `default` branch of the switch (lines 81-82) cannot be reached, so it is not modelled.
- `PDFExporter` and `ExcelExporter` are opaque tags. The `ExporterFactory` and `Exporter` interfaces are not part of this model.
- ExporterFor: a registered factory's own `getExporterForType` lives outside this repository, so the model gives no answer for it (None) and promises nothing about it.
- `FuzzySearchBase.java` is a property bag over the framework's state helper with no logic of its own, so it is not modelled.
