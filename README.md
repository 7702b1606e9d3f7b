# nanachi-web-transpiler, modelled in Dafny

nanachi-web-transpiler turns a mini-program source tree into a web project. A
`Transpile` instance watches the source directory. Each file it is told about
is classified as the app entry (`app.js`), an ordinary JavaScript module, a
stylesheet or a static file. It gets one transformer instance in one of two
path-keyed registries. When a file changes, the stored instance either
re-transforms the file or copies it to the intermediate directory.

This project models that core and proves properties about it:

- `Paths` models `path.resolve` and `path.relative` over segment sequences. It proves the round trip `resolve(from, relative(from, to)) == to`.
- `Asset` models a source file's identity. Its destination is derived once from its source path. Its `content` is the only field that changes.
- `Css` models the `/(\d+)rpx/g` → `<n/100>rem` rewrite as a left-to-right scan, with JavaScript's printing of `n / 100` written out exactly. The lemmas about it cover the value printed, copying of unmatched text, the absence of any token in the output, idempotence, and the `1.5rpx` quirk.
- `JavaScript` models the visitor table with its `Object.assign` merge, and the `parse`/`generate` state machine. A rejected parse keeps the previous tree. Without a tree, `generate` throws.
- `Ordinary` covers the ordinary-module rewrites:
  - the tag rename through the component tables;
  - the `src` asset-path predicate and rewrite;
  - the discovered-name list and its two filters;
  - the `unshift` import insertion.

  `addComponentName` is kept as written: it pushes a name only when the list already holds it. The list therefore stays empty, and `transform` never inserts an import.
- `App` covers page extraction in the app entry: the `Page_<n>` counter, the `importedPages` and `exportedPages` lists, the `AppConfig` class and export rewrites, and the assembly of `exportedPagesCode`.
- `ComponentsNameMap` holds the three tag tables. It proves them pairwise disjoint, which makes the merged table well defined.
- `Transpile` covers the classifier, `onAddFile` and `onFileChange` over the two registries, and the registries' merged view.

Babel's parser and printer are function parameters (`string -> Option<Program>` and `Program -> string`). The file text that `read` returns is a parameter. `write` and `copy` return the file operation they request as a value. A program is a sequence of top-level statements, and JSX markup is a tree of elements.

## Model

| member | source | states |
|---|---|---|
| Text.NatToString | src/transformer/script/app.ts:34 | the decimal spelling of a page index is non-empty, all digits, has no leading zero and reads back as the index |
| Text.NatToStringInjective | src/transformer/script/app.ts:34 | distinct indices print differently |
| Text.NatOfAppend | src/transformer/style/css.ts:17-18 | the value of a concatenated numeral is the left value shifted by the right length plus the right value |
| Paths.CommonPrefixLength | src/transformer/asset/index.ts:13 | the shared prefix of two paths is as long as it can be: the next segments differ |
| Paths.Resolve | src/transformer/asset/index.ts:14-17 | `path.resolve` of a relative path segment by segment; the result is at most as long as base and relative path together |
| Paths.Relative | src/transformer/asset/index.ts:13 | `path.relative`: equal paths give the empty path, and the result holds only `..` and plain names |
| Paths.ResolveAppends | src/transformer/asset/index.ts:14-17 | resolving a normalised relative path appends its segments |
| Paths.ResolveClimbs | src/transformer/asset/index.ts:14-17 | each leading `..` drops one segment of the base |
| Paths.RelativeRoundTrip | src/transformer/asset/index.ts:13-17 | resolving `relative(from, to)` against `from` gives back the normalised `to` |
| Paths.RelativeOfNested | src/transformer/asset/index.ts:13 | a path below `dir` is relative to `dir` by dropping `dir` |
| Paths.ReRootNested | src/transformer/asset/index.ts:13-17 | a source `srcDir/rel` lands at `destDir/rel` |
| Asset.Asset.constructor | src/transformer/asset/index.ts:11-18 | the source path is kept; the relative path and the destination are derived from it; for a source under the source directory the destination is the destination directory plus the same relative path |
| Asset.Asset.Read | src/transformer/asset/index.ts:20-22 | `content` becomes the text read, and the path fields cannot change |
| Asset.Asset.UpdateFileContent | src/transformer/asset/index.ts:24-26 | `content` becomes the given text, and nothing else changes |
| Asset.Asset.Write | src/transformer/asset/index.ts:28-30 | writes the current content to the destination and changes no field |
| Asset.Asset.Copy | src/transformer/asset/index.ts:32-34 | copies the source file to the destination and changes no field |
| Css.StripLeadingZeros | src/transformer/style/css.ts:18 | the result is digits with no leading zero |
| Css.StripKeepsValue | src/transformer/style/css.ts:18 | dropping leading zeros keeps the value that `n` denotes |
| Css.LeftPadKeepsValue | src/transformer/style/css.ts:18 | padding the hundredths to two digits keeps their value |
| Css.Hundredths | src/transformer/style/css.ts:18 | the printed quotient starts with a digit |
| Css.TwoFractionDigits | src/transformer/style/css.ts:18 | `w.ff` denotes w*100+ff hundredths |
| Css.OneFractionDigit | src/transformer/style/css.ts:18 | `w.f` with a dropped trailing zero denotes the same hundredths |
| Css.WholeNumber | src/transformer/style/css.ts:18 | a whole quotient is printed without a point and denotes w*100 hundredths |
| Css.FractionSuffixValue | src/transformer/style/css.ts:18 | the printed fraction denotes the right value and never ends in a zero after the point |
| Css.HundredthsDenotes | src/transformer/style/css.ts:18 | `${n / 100}` denotes exactly n hundredths and is the shortest spelling of that value |
| Css.HundredthsCharacters | src/transformer/style/css.ts:18 | the printed quotient holds only digits and a point |
| Css.DigitRun | src/transformer/style/css.ts:17 | `\d+` is greedy: the run is all digits and the next character is not one |
| Css.MatchRpx | src/transformer/style/css.ts:17 | a match at the start is the maximal digit run followed by `rpx` |
| Css.MatchIsTheOnlyReading | src/transformer/style/css.ts:17 | any reading of the start as digits then `rpx` is the match found |
| Css.RpxToRem | src/transformer/style/css.ts:16-19 | the global `replace`, scanned from the left; its meaning is stated by `ReplacesToken`, `CopiesWhileNoMatch`, `NoTokenInOutput` and `Idempotent` (the one-step helpers `CopyStep` and `ReplaceStep` only unfold it) |
| Css.ReplacesToken | src/transformer/style/css.ts:16-19 | `<digits>rpx` becomes `<digits/100>rem` and the rest is scanned |
| Css.UnchangedWithoutToken | src/transformer/style/css.ts:16-19 | text without a digit followed by `rpx` is returned unchanged |
| Css.CopiedHead | src/transformer/style/css.ts:16-19 | a non-digit at the head of the output was copied from the input |
| Css.CopiedPrefix | src/transformer/style/css.ts:16-19 | a digit-free prefix of the output is a prefix of the input |
| Css.NoTokenAroundReplacement | src/transformer/style/css.ts:18 | a `<number>rem` replacement neither starts nor completes a token |
| Css.NoTokenAroundCopy | src/transformer/style/css.ts:16-19 | a copied character starts no token unless it is a digit before `rpx` |
| Css.NoTokenInOutput | src/transformer/style/css.ts:16-19 | no digit followed by `rpx` survives the replacement |
| Css.Idempotent | src/transformer/style/css.ts:16-19 | replacing a second time changes nothing |
| Css.CopiesWhileNoMatch | src/transformer/style/css.ts:16-19 | a stretch where no match starts is copied verbatim |
| Css.NonDigitsDoNotMatch | src/transformer/style/css.ts:17 | no match starts inside text without digits |
| Css.CopiesNonDigits | src/transformer/style/css.ts:16-19 | text without digits is copied verbatim |
| Css.UnmatchedRunDoesNotMatch | src/transformer/style/css.ts:17 | a maximal digit run not followed by `rpx` matches at none of its positions |
| Css.CopiesUnmatchedRun | src/transformer/style/css.ts:16-19 | a digit run not followed by `rpx` is copied verbatim |
| Css.DecimalPointKeepsIntegerPart | src/transformer/style/css.ts:17 | in `W.Frpx` only `F` is matched, so `W.` is kept: `1.5rpx` becomes `1.0.05rem` |
| Css.HundredthsExamples | src/transformer/style/css.ts:18 | `${5 / 100}` is `0.05` and `${150 / 100}` is `1.5` |
| Css.TokenExample | src/transformer/style/css.ts:16-19 | `5rpx` becomes `0.05rem` |
| Css.BareUnitExample | src/transformer/style/css.ts:17 | `rpx` without a digit in front is left alone |
| Css.CssTransformer.constructor | src/transformer/style/css.ts:9-11 | the asset identity is derived as for any asset; `code` starts empty |
| Css.CssTransformer.Transform | src/transformer/style/css.ts:13-20 | after reading, `content` and `code` both hold the rewritten text |
| JavaScript.Assign | src/transformer/script/javascript.ts:25-27 | every key of the new table takes the new visitor; every other key keeps its own |
| JavaScript.ReRegistrationChangesNothing | src/transformer/script/javascript.ts:15-27 | registering the same table again leaves the merged table unchanged |
| JavaScript.AssignAssociative | src/transformer/script/javascript.ts:25-27 | two merges in a row equal one merge of the merged tables |
| JavaScript.DistinctRegistrationsCommute | src/transformer/script/javascript.ts:25-27 | registrations under distinct keys all survive, in either order |
| JavaScript.JavaScriptTransformer.constructor | src/transformer/script/javascript.ts:10-19 | empty code, no tree, an empty visitor table, the asset identity derived from the paths |
| JavaScript.JavaScriptTransformer.RegisterTraverse | src/transformer/script/javascript.ts:25-27 | the table becomes the merge of the old table and the new one; nothing else changes |
| JavaScript.JavaScriptTransformer.Parse | src/transformer/script/javascript.ts:29-43 | `content` and `sourceCode` hold the text read; an accepted text replaces the tree; a rejected one keeps the previous tree |
| JavaScript.JavaScriptTransformer.Generate | src/transformer/script/javascript.ts:45-48 | with a tree, `code` and `content` hold the same printed text; without one it throws and nothing changes |
| ComponentsNameMap.TablesDisjoint | src/transformer/script/componentsNameMap.ts:5-36 | the web, native and internal tables have pairwise disjoint keys |
| ComponentsNameMap.WebNativeDisjoint | src/transformer/script/componentsNameMap.ts:5-25 | web and native keys are disjoint |
| ComponentsNameMap.WebInternalDisjoint | src/transformer/script/componentsNameMap.ts:5-36 | web and internal keys are disjoint |
| ComponentsNameMap.NativeInternalDisjoint | src/transformer/script/componentsNameMap.ts:14-36 | native and internal keys are disjoint |
| ComponentsNameMap.WebTagNames | src/transformer/script/componentsNameMap.ts:5-12 | every web key starts lower-case and is none of `div`, `span`, `iframe` |
| ComponentsNameMap.NativeTagNames | src/transformer/script/componentsNameMap.ts:14-25 | every native key starts lower-case and is none of `div`, `span`, `iframe` |
| ComponentsNameMap.InternalTagNames | src/transformer/script/componentsNameMap.ts:27-36 | every internal key starts lower-case and is none of `div`, `span`, `iframe` |
| ComponentsNameMap.WebReplacements | src/transformer/script/componentsNameMap.ts:5-12 | every web replacement is capitalised or one of `div`, `span`, `iframe`, so it is no key |
| ComponentsNameMap.NativeReplacements | src/transformer/script/componentsNameMap.ts:14-25 | every native replacement is capitalised or one of `div`, `span`, `iframe`, so it is no key |
| ComponentsNameMap.InternalReplacements | src/transformer/script/componentsNameMap.ts:27-36 | every internal replacement is capitalised or one of `div`, `span`, `iframe`, so it is no key |
| ComponentsNameMap.Lookup | src/transformer/script/componentsNameMap.ts:38-42 | the merged table has an entry exactly for the keys of the three tables, and it agrees with the one table holding the key |
| ComponentsNameMap.ReplacementsAreNotKeys | src/transformer/script/componentsNameMap.ts:38-42 | looking up a replacement finds nothing |
| ComponentsNameMap.ImportedEntries | src/transformer/script/componentsNameMap.ts:21-28 | `switch` is native and maps to `Switch`; `image` is internal and maps to `Image` |
| ComponentsNameMap.WebEntries | src/transformer/script/componentsNameMap.ts:5-12 | the web renames to `div`, `span` and `iframe` |
| ComponentsNameMap.ScrollViewSpellings | src/transformer/script/componentsNameMap.ts:11-20 | `scroll-view` (web) and `scorll-view` (native) are distinct keys |
| Ordinary.AddName | src/transformer/script/ordinary.ts:100-104 | a name is pushed only when the list already holds it; the set of names never grows |
| Ordinary.AddNamesAddsNothingNew | src/transformer/script/ordinary.ts:100-104 | repeated calls hold no new name, so a list that starts empty stays empty |
| Ordinary.FilterIn | src/transformer/script/ordinary.ts:60-66 | the filter keeps exactly the names the table holds, and is no longer than the list |
| Ordinary.FilterInDistributes | src/transformer/script/ordinary.ts:60-66 | the filter keeps list order: filtering a concatenation concatenates the filtered parts |
| Ordinary.ExternalWaiting | src/transformer/script/ordinary.ts:60-62 | `externalComponentsWaitingImported` holds exactly the listed names with a native table entry |
| Ordinary.InternalWaiting | src/transformer/script/ordinary.ts:64-66 | `internalComponentsWaitingImported` holds exactly the listed names with an internal table entry |
| Ordinary.WaitingListsAreDisjoint | src/transformer/script/ordinary.ts:60-66 | no name waits for both a native and an internal import |
| Ordinary.ImportsFor | src/transformer/script/ordinary.ts:72-98 | one default import per name, in reverse list order, binding the name to the prefixed source |
| Ordinary.NothingWaitingNothingImported | src/transformer/script/ordinary.ts:55-98 | with nothing waiting, the body after both insert steps is the body itself |
| Ordinary.InternalImportsFirst | src/transformer/script/ordinary.ts:55-98 | after both insert steps the internal imports come first, then the external ones, then the original body; each binds a waiting name of its own table to its prefixed source |
| Ordinary.RenameTag | src/transformer/script/ordinary.ts:113-134 | the rename the visitor evidently intends (the code as written renames nothing, see "## Left out"): an identifier with a table entry is renamed, others keep their name; a closing tag is set to the lookup, with no fallback, only on the non-self-closing branch |
| Ordinary.RenameTagIdempotent | src/transformer/script/ordinary.ts:113-134 | when the closing branch does not run (`selfClosing` truthy), renaming a renamed tag changes nothing |
| Ordinary.RenameTagClearsClosing | src/transformer/script/ordinary.ts:126-132 | about the model's closing branch, which the code as written never reaches: when it runs, a second pass keeps the opening name and clears the closing name, since no replacement has an entry |
| Ordinary.RenameTagTwiceDiffers | src/transformer/script/ordinary.ts:118-132 | about the model's closing branch, which the code as written never reaches: `<view></view>` closes with `div` after one pass and with nothing after two, so the rename is not idempotent when the closing branch runs |
| Ordinary.RenameTagSettles | src/transformer/script/ordinary.ts:113-134 | whatever the closing branch does, a third pass changes nothing after two |
| Ordinary.NonSpaceRun | src/transformer/script/ordinary.ts:145 | `[^\s]+` is greedy: the run is all non-space and stops at white space or the end |
| Ordinary.AssetsCapture | src/transformer/script/ordinary.ts:145-173 | the captured group is non-empty and holds no white space |
| Ordinary.CaptureAtFirstMatch | src/transformer/script/ordinary.ts:145-173 | the first position where the pattern matches decides the group |
| Ordinary.NoCaptureWithoutMatch | src/transformer/script/ordinary.ts:145-160 | the pattern fails only where it matches at no position |
| Ordinary.IsRemoteUrl | src/transformer/script/ordinary.ts:144 | `/^https?:\/\//`: the value starts with `http://` or `https://` |
| Ordinary.ShouldReplaceAssets | src/transformer/script/ordinary.ts:147-166 | all four tests: the attribute is `src`, its value a string literal, not a remote URL, and the assets pattern matches |
| Ordinary.AssetPath | src/transformer/script/ordinary.ts:177 | the required path starts with `@assets` and is not a remote URL |
| Ordinary.AssetPathUnderAssets | src/transformer/script/ordinary.ts:169-178 | `../assets/a.png` style values keep what follows `assets`: `@assets/a.png` |
| Ordinary.AssetPathIdempotent | src/transformer/script/ordinary.ts:169-178 | the rewritten path is a fixed point of the path rewrite |
| Ordinary.RewriteAttr | src/transformer/script/ordinary.ts:141-181 | a `src` attribute with a local string literal matching the pattern becomes `require("@assets…")`; any other attribute is untouched; the result never qualifies again |
| Ordinary.RewriteElement | src/transformer/script/ordinary.ts:111-183 | the rewrite keeps the number of attributes and children |
| Ordinary.RewriteLeavesNoPendingAsset | src/transformer/script/ordinary.ts:139-183 | with the asset visitor registered, no qualifying attribute is left anywhere in the markup |
| Ordinary.RewriteIdempotent | src/transformer/script/ordinary.ts:111-183 | when the closing branch does not run, applying both visitors twice equals applying them once |
| Ordinary.RewriteSettles | src/transformer/script/ordinary.ts:111-183 | whatever the closing branch does, a third application of both visitors changes nothing after two |
| Ordinary.RewriteStmt | src/transformer/script/ordinary.ts:111-183 | imports carry no markup and are left as they are |
| Ordinary.RewriteProgram | src/transformer/script/javascript.ts:21-23 | the traversal keeps the number of top-level statements |
| Ordinary.OrdinaryJavaScript.constructor | src/transformer/script/ordinary.ts:48-49 | empty name list, no tree, an empty table, the asset identity derived from the paths |
| Ordinary.OrdinaryJavaScript.AddComponentName | src/transformer/script/ordinary.ts:100-104 | the list becomes `AddName` of the old list |
| Ordinary.OrdinaryJavaScript.Register | src/transformer/script/ordinary.ts:106-109 | the asset visitor and the tag visitor are registered, and nothing else changes |
| Ordinary.OrdinaryJavaScript.Traverse | src/transformer/script/ordinary.ts:111-137 | the tree is rewritten by the registered visitors, with the rename as evidently intended; every visited tag name is offered to `addComponentName` in order |
| Ordinary.OrdinaryJavaScript.ReportNames | src/transformer/script/ordinary.ts:120 | the list becomes the old list after `addComponentName` on each name in turn |
| Ordinary.OrdinaryJavaScript.UnshiftImports | src/transformer/script/ordinary.ts:72-98 | the imports for the names are prepended to the body; without a tree it throws unless there is nothing to insert |
| Ordinary.OrdinaryJavaScript.InsertExternalComponents | src/transformer/script/ordinary.ts:86-98 | prepends `schnee-ui/components/X<name>` imports for the native names waiting |
| Ordinary.OrdinaryJavaScript.InsertInternalComponents | src/transformer/script/ordinary.ts:72-84 | prepends `@internalComponents/<name>` imports for the internal names waiting |
| Ordinary.OrdinaryJavaScript.InsertWaitingComponents | src/transformer/script/ordinary.ts:55-56 | with a tree, the external then the internal imports are prepended, giving `BodyWithImports`; without one it throws unless nothing waits, and the tree stays absent |
| Ordinary.OrdinaryJavaScript.Transform | src/transformer/script/ordinary.ts:51-58 | `TransformedFrom`: it succeeds exactly when a tree exists after parsing; the printed code is the rewritten tree with no import inserted; a failure leaves no tree and `content` holding the text read |
| App.PageName | src/transformer/script/app.ts:34 | page names start with `Page_` |
| App.PageNamesDistinct | src/transformer/script/app.ts:23-34 | distinct indices give distinct page names |
| App.PageUrl | src/transformer/script/app.ts:38 | the url is the import path without its first character |
| App.PageUrlOfPageImport | src/transformer/script/app.ts:38-74 | a `./pages…` import gives a url starting with `/pages` |
| App.PageTablesAgree | src/transformer/script/app.ts:33-80 | the loader list and the page list have one entry per extracted path, the i-th entries name the same page, and page names are pairwise distinct |
| App.LoadersAppend | src/transformer/script/app.ts:43-75 | one more page appends exactly one loader and one item |
| App.RewriteAppStmt | src/transformer/script/app.ts:69-105 | as the visitors evidently intend (see the Babel line under "## Left out"): a `./pages` import is removed exactly when the page visitor is registered; other imports stay; a class becomes `AppConfig` with no superclass and the same body; an export becomes `export default new AppConfig()` |
| App.RewriteAppBody | src/transformer/script/app.ts:69-105 | the traversal of the top-level statements with the app visitors; it never adds statements |
| App.PagePaths | src/transformer/script/app.ts:69-80 | the sources of the removed page imports, in order; at most one per statement |
| App.AppStep | src/transformer/script/app.ts:69-105 | one statement more extends the kept statements and the extracted paths by its own rewrite |
| App.EveryStatementAccountedFor | src/transformer/script/app.ts:69-80 | every statement is either kept or extracted as a page |
| App.PagePathsArePages | src/transformer/script/app.ts:74 | every extracted path starts with `./pages`; none are extracted without the page visitor |
| App.NoPageImportRemains | src/transformer/script/app.ts:69-80 | no `./pages` import survives the traversal |
| App.OtherImportsKept | src/transformer/script/app.ts:74 | any other import is in the result exactly when it was in the input |
| App.ClassesBecomeAppConfig | src/transformer/script/app.ts:82-94 | every class left is `AppConfig` with no superclass, and each input class body survives under that name |
| App.ExportsBecomeAppConfig | src/transformer/script/app.ts:96-105 | every default export left is `new AppConfig()`, and one is left whenever the input had one |
| App.ExportedPagesCode | src/transformer/script/app.ts:62-66 | the text of the route module; its layout is stated by the two lemmas below |
| App.ExportedPagesCodeParts | src/transformer/script/app.ts:6-67 | the route module holds the Loadable imports, then the page loaders, then the page array export, in that order |
| App.ExportedPagesCodeDetermines | src/transformer/script/app.ts:57-67 | the route module determines its parts: equal modules with equally long loader texts have equal loaders and equal exports |
| App.RegistrationsMerge | src/transformer/script/app.ts:51-55 | the three registrations merge as one table of three visitors |
| App.AppVisitorsRegistered | src/transformer/script/app.ts:51-55 | after registration the import, class and export visitors are the app's own |
| App.AppTransformer.constructor | src/transformer/script/app.ts:12-23 | no pages, page index 0, no route module, no tree |
| App.AppTransformer.Loadable | src/transformer/script/app.ts:33-49 | as evidently intended (see the Babel line under "## Left out"): returns the loader for `Page_<index>`, increments the index by one and appends one page item |
| App.AppTransformer.Register | src/transformer/script/app.ts:51-55 | the table becomes the old one merged with the three app visitors |
| App.AppTransformer.Traverse | src/transformer/script/app.ts:69-105 | the body becomes the rewritten body, and the page lists grow by the extracted pages in discovery order |
| App.AppTransformer.GenerateExportedPagesCode | src/transformer/script/app.ts:57-67 | the route module is assembled from the printed loaders and the printed page-array export |
| App.AppTransformer.Transform | src/transformer/script/app.ts:25-31 | `TransformedFrom`: it succeeds exactly when a tree exists after parsing; the code, the pages and the route module follow from the rewritten tree; no page import remains; pages keep accumulating across runs |
| Transpile.IsTransformable | src/index.ts:32-34 | a file type is transformable exactly when it is not static |
| Transpile.DistinguishFileType | src/index.ts:126-140 | a path is the app file exactly when it equals `appJSPath`; it is transformable exactly when it is the app file, ends in `.js`, or ends in `.css`, `.scss` or `.less` |
| Transpile.RenderEndsWithName | src/index.ts:131-134 | a rendered path ends with `/` and its last segment |
| Transpile.SuffixOfName | src/index.ts:131-134 | a suffix without `/` is tested on the file name alone |
| Transpile.ClassifiedByName | src/index.ts:126-140 | any path but `appJSPath` is ordinary JavaScript for `.js`, a stylesheet for `.css`, `.scss` or `.less`, and static otherwise |
| Transpile.AppEntryIsNeverOrdinary | src/index.ts:126-132 | `app.js` ends in `.js` yet classifies as the app file |
| Transpile.LookalikesAreStatic | src/index.ts:131-138 | `.jsx`, `.ts`, `.sass`, `.json` and `.png` files are static |
| Transpile.SeparateAfterStore | src/index.ts:142-162 | storing a fresh instance keeps every stored instance's objects apart |
| Transpile.Transpile.constructor | src/index.ts:46-71 | the configuration is kept, `appJSPath` is `srcDirPath` plus `app.js`, and both registries start empty |
| Transpile.Transpile.SrcDirPath | src/index.ts:65-67 | `srcDirPath`: for a normalised `sourceDirName`, the source root followed by it |
| Transpile.Transpile.DestDirPath | src/index.ts:69-71 | `destDirPath`: for a normalised `intermediateDirName`, the intermediate root followed by it |
| Transpile.Transpile.DestinationOf | src/transformer/asset/index.ts:13-17 | a source `srcDirPath/rel` lands at `destDirPath/rel` |
| Transpile.Transpile.AssetAt | src/index.ts:165 | `allAssets[filePath]`: defined exactly for a path in either registry, and the static entry when there is one |
| Transpile.Transpile.AllAssets | src/index.ts:96-101 | the merged view holds both registries' keys, and a static entry wins over a transformer under the same key |
| Transpile.Transpile.AssetAtIsAllAssets | src/index.ts:165 | looking a path up in the merged view is a lookup in the static registry, then the transformer registry |
| Transpile.Transpile.MapsAreDisjoint | src/index.ts:96-162 | no path is in both registries, so the merged view returns every stored transformer |
| Transpile.Transpile.OnAddFile | src/index.ts:142-162 | a static path gets a fresh asset in the static registry; any other path gets a fresh transformer of its kind; the other registry and other keys are untouched; re-adding a path replaces its instance |
| Transpile.Transpile.NewTransformer | src/index.ts:146-156 | a fresh transformer of the path's kind, with source and destination derived from the path |
| Transpile.Transpile.Store | src/index.ts:147-155 | the transformer registry gains the entry, and the registries stay consistent |
| Transpile.Transpile.TransformInstance | src/index.ts:169 | a stylesheet's content becomes the rewritten text; an app or ordinary module ends in its class's `TransformedFrom` state: the text read, the visitors merged, and either the rewritten tree with `code` and `content` its printing (plus, for the app, the grown page tables and route module) or no tree |
| Transpile.Transpile.TransformStored | src/index.ts:168-169 | the stored instance ends in the same state `TransformInstance` gives; the registries and every other stored instance are unchanged |
| Transpile.Transpile.OnFileChange | src/index.ts:164-173 | a transformable path re-transforms its stored instance; a static path is copied to its destination; a path with no entry throws; the registries never change; after a transform, an app or ordinary module is in its class's `TransformedFrom` state, so the new tree, `code` and `content` are known |

## Left out

- File watching and the entry points are not modelled: the chokidar watcher, the `add`/`ready`/`error` wiring, `build`, `watch`, `collectAndTranspile`, `process.exit`, `notifyWhenPromiseRejected` and the unawaited promise arrays of `transformAllStaticAssets` and `transformAllTransformableAssets` (src/index.ts:73-124, 175-184). These are I/O and concurrency. `transform` and `copy` run to completion one at a time.
- File I/O is left out. The text `read` returns is a parameter; `write` and `copy` return the operation as a value. An error from the file system is not modelled. The `console.log(error)` of a rejected parse (src/transformer/script/javascript.ts:39-42) is not modelled; `JavaScript.JavaScriptTransformer.Parse` keeps only its effect on the state.
- Babel is left out. The parser, the traversal order within a statement, `path.replaceWith`/`path.remove`, the `@babel/template` expansion of page loaders, and the printed text are all outside the model. The App model describes what the app visitors evidently intend, not what src/transformer/script/app.ts does as written, in two respects. First, Babel re-queues a node that `path.replaceWith` puts in place. The `ClassDeclaration` and `ExportDefaultDeclaration` visitors (src/transformer/script/app.ts:82-105) replace their node with a fresh node of the same type, so the same visitor runs on it again and replaces it again. As written, the traversal of an `app.js` that has a class or a default export never settles: it ends in a stack overflow, and `transform` is rejected. The model applies each visitor once per statement. Second, the `buildAsyncImport` template (app.ts:16-22) contains `DEFAULT_LOADING`, which matches `@babel/template`'s default placeholder pattern `^[_$A-Z0-9]+$`. The call at app.ts:45-48 supplies only `IMPORT_PATH` and `PAGE_NAME`, so as written `loadable` throws after `pageIndex` is incremented and the page item is pushed, and before any loader is pushed. The model returns the loader, with the template expansion abstract. The traversal visits the top-level statements. Only top-level classes, default exports and imports are rewritten by the app visitors.
- Ordinary.RenameTag: the model follows the evident intent of src/transformer/script/ordinary.ts:113-132, not the code as written. As written, `path.get('name')` returns a NodePath, not the identifier node. So `componentAttr.name` is `undefined`, the table lookup finds nothing, `addComponentName(undefined)` is called, and no tag is renamed. `path.get('selfClosing')` is always an object, so `!path.get('selfClosing')` is false and the closing branch is never taken. If it were taken, `path.find` searches the opening element and its ancestors, finds no closing element and throws. The model instead renames the identifier and offers its name to `addComponentName`. The list stays empty either way, because `addComponentName` pushes only a name it already holds. `path.find(t.isJSXClosingElement)` is taken to find the element's own closing tag. The truthiness of `path.get('selfClosing')` is an abstract boolean parameter; only `true` matches the code as written. `Ordinary.RenameTagClearsClosing` and `Ordinary.RenameTagTwiceDiffers` describe the model's closing branch, which the source does not reach. The rename is idempotent only when the closing branch does not run (`Ordinary.RenameTagIdempotent`, `Ordinary.RewriteIdempotent`); when it runs, two passes differ (`Ordinary.RenameTagTwiceDiffers`) and the model proves only that the rename settles after two (`Ordinary.RenameTagSettles`, `Ordinary.RewriteSettles`).
- Css.Hundredths: the value is printed exactly, as JavaScript prints `n / 100` for digit runs short enough to be represented exactly (at most 15 digits). Exponent notation and rounding of longer runs are not modelled.
- Paths: `path.resolve`/`path.relative` are modelled on normalised absolute segment paths. `.`, `..` and symbolic links in configured directories, and the process's working directory, are not modelled. `cwd` is stored but unused, as in the source.
- Transpile.DistinguishFileType: watcher paths are compared as segment paths, so two spellings of one file are not told apart.
- Transpile.Transpile.OnFileChange: key lookups do not see inherited `Object.prototype` properties (a file named `constructor`). A stored transformer's `InstanceValid` is part of the registry invariant `Valid`.
- ComponentsNameMap.Lookup: `componentsNameMap[name]` also finds inherited `Object.prototype` properties (a tag named `constructor` or `toString`); the model's tables hold only the listed keys.
- Ordinary.FilterIn: the `nativeComponentsMap[name]` and `internalComponentsMap[name]` tests of the two filters likewise ignore inherited `Object.prototype` properties.
- App.AppTransformer.GenerateExportedPagesCode: `generate(exportAst)` is modelled as printing a one-statement program.
- src/transformer/transformer.ts is not part of this model: it only declares a field.
- Event-name normalisation, `map` argument injection and lazy wrapping of default exports do not appear in the code and are not modelled.
- App.PageUrl: the url keeps the leading `/` of `./pages/home` (`/pages/home`), as the code computes `importPath.slice(1)`.
