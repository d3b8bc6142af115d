# Localisation core of the mehtiumit/cv site, in Dafny

This project models the localisation subsystem of a Next.js CV site and the small
rules around it, and proves properties of the model.

- **Translation trees.** Each language's file is a tree whose leaves are strings and
  string arrays (`TranslationTree.Node`). Dotted key paths are walked one segment at a time.
- **The translation function `t(key, fallback)`.** It tries the active language, then
  the fallback language, then `fallback || key`, and records every degraded answer in
  an error log. Both copies are modelled:
  - the type-safe one in utils/translations.ts, whose `getErrors` returns a copy;
  - the context one in context/LanguageContext.tsx, whose `getErrors` returns the live log.
- **The language provider.** Its language and loading state, restoring the stored
  choice on mount, and `setLanguage`/`toggleLanguage`. Local storage, the
  `preferred-language` cookie, the `languageChange` events, the `onLanguageChange`
  calls and the console warnings are fields. A failing storage access is a boolean input.
- **Completeness checks.**
  - `validateTranslationCompleteness` computes missing and extra leaf paths.
  - `validateTranslations` and `validateLanguage` classify each reference path as
    missing, empty, type-mismatched or valid, and keep counters.
  - `findMissingKeys`.
- **Test helpers** of utils/translationTesting.ts: the mock translation function and
  the table-driven checks.
- **Runtime validators** of types/validators.ts as `Result`-returning functions, and
  the `ValidationContext` path/error stack as a class.
- **The project catalogue** (data/projects.ts): its filters, its lookup by id and its
  localisation merge.
- **The components' logic:**
  - ProjectFilter: roving focus and the click guard;
  - ProjectsGrid: filtering, and the loading/empty/grid view;
  - ProjectCard: the feature split at four, and its conditional sections and ids;
  - LanguageToggle;
  - DynamicLayout: the `<html lang>` it derives;
  - ExperienceCard: month-difference durations, in the .tsx and .jsx versions.

One module per source file:

| file | module |
|---|---|
| wrappers.dfy | `Wrappers`: `Option`, `Result` |
| strings.dfy | `Strings`: JavaScript `||` on strings, `split`, `join`, number printing, `filter` |
| tree.dfy | `TranslationTree`: `Lang`, `Node`, `Bundle`, `Walk`, `LeafPaths` |
| translations.dfy | `Translations`: utils/translations.ts |
| language_context.dfy | `LanguageContext`: context/LanguageContext.tsx |
| translation_store.dfy | `TranslationStore`: data/translations/index.ts |
| translation_validation.dfy | `TranslationValidation`: utils/translationValidation.ts |
| translation_testing.dfy | `TranslationTesting`: utils/translationTesting.ts |
| validators.dfy | `Validators`: types/validators.ts |
| projects.dfy | `Projects`: data/projects.ts |
| project_filter.dfy, projects_grid.dfy, project_card.dfy, language_toggle.dfy, dynamic_layout.dfy, experience_card.dfy | the components of the same names |

How the JavaScript is represented:

- **Trees and walks.** A JSON object is an ordered list of entries, in `for…in` order.
  A walk step (`current && typeof current === 'object' && key in current`) is
  `TranslationTree.Child`:
  - strings are never objects;
  - arrays are indexed by canonical decimal keys;
  - objects are searched for the first entry with that key.
- **`undefined` and `null`** are `None`.
- **Stateful code is imperative:** the translators' logs, the provider, the key
  builder, the validation context, the filter tabs, the grid and the layout are
  classes. Loops that build lists or counters are methods with loop invariants, each
  proved against a specification function on the tree.
- **Pure code is functions:** the catalogue, the validators, the card, the toggle and
  the durations.
- **Inputs, not state:** the language files are arbitrary trees. Date parsing and the
  clock are function parameters.

## Model

| member | source | states |
|---|---|---|
| TranslationTree.ParseLang | context/LanguageContext.tsx:11-14 | a string names a language exactly when it is "en" or "tr", and the parsed language prints back as that string |
| TranslationTree.FindIndex | utils/translationValidation.ts:51-52 | `key in obj` on an object finds the first entry with that key; None means no entry has it |
| TranslationTree.ArrayIndex | utils/translationValidation.ts:51-52 | only an all-digit key can index an array |
| TranslationTree.ArrayIndexOfNat | utils/translationValidation.ts:51-52 | the decimal form of every index selects that index |
| TranslationTree.WalkAppend | utils/translationValidation.ts:46-59 | walking a path made of two parts walks the first part, then the second from where the first ended |
| TranslationTree.LeafPathsAreJoins | utils/translationValidation.ts:27-43 | the n-th path the traversal emits is the '.'-join of the keys leading to the n-th leaf, with arrays counted as leaves |
| TranslationTree.LeavesResolve | utils/translationValidation.ts:46-59 | walking each leaf's key list reaches that leaf |
| TranslationTree.LeafPathsResolve | utils/translationValidation.ts:27-59 | in a well-formed tree, splitting every emitted path on '.' and walking it reaches the leaf the path was emitted for |
| Strings.OrElse | context/LanguageContext.tsx:108 | `a \|\| b` on strings is `a` unless it is empty, and is empty only when both are |
| Strings.Split | utils/translationValidation.ts:47 | `split('.')` gives at least one part and no part contains the separator |
| Strings.JoinSplit | utils/translations.ts:345-347 | joining the parts of a split restores the string |
| Strings.SplitJoin | utils/translations.ts:345-347 | splitting a join of separator-free parts gives the parts back |
| Strings.JoinEmpty | utils/translations.ts:345-347 | for non-empty parts, a join is empty exactly when there are no parts |
| Strings.JoinSnoc | utils/translations.ts:345-347 | joining one more part appends the separator and that part |
| Strings.NatToString | utils/translationValidation.ts:130-132 | a number prints as at least one decimal digit with no leading zero |
| Strings.ParseNatToString | utils/translationValidation.ts:130-132 | reading the printed digits back gives the number |
| Strings.IntToString | components/ExperienceCard.tsx:27 | negative numbers print with a leading minus sign |
| Strings.FilterMembers | utils/translations.ts:299 | `filter` keeps exactly the elements that satisfy the predicate |
| Strings.FilterAll | utils/translations.ts:299 | a predicate that holds everywhere filters out nothing |
| Translations.GetTranslationValue | utils/translations.ts:49-65 | the loop's cursor reaches the node the recursive walk reaches, or undefined as soon as a segment is missing |
| Translations.ValidateTranslationKey | utils/translations.ts:28-44 | true exactly when the walk ends at a string, so exactly when getTranslationValue returns a string |
| Translations.HasTranslationKey | utils/translations.ts:209-211 | true exactly when the language's file holds a string at the key |
| Translations.ResolveOutcomes | utils/translations.ts:85-107 | an empty key gives the fallback and logs nothing; a string in the active language is returned and logs nothing; otherwise the fallback language's string, unless it is the active one; otherwise `fallback \|\| key`; every degraded answer logs exactly one error naming the active language and the returned value |
| Translations.Resolve | utils/translations.ts:85-107 | an error is logged exactly when the key is non-empty and the active language lacks a string for it; the error names the key, the active language and the returned text; an empty answer to a non-empty key is a string found in one of the two languages |
| Translations.TypeSafeTranslator.constructor | utils/translations.ts:70-74 | a new translation function has an empty log |
| Translations.TypeSafeTranslator.LogError | utils/translations.ts:76-83 | appends exactly one error |
| Translations.TypeSafeTranslator.Translate | utils/translations.ts:85-107 | returns the resolved text and appends exactly the error the resolution records |
| Translations.TypeSafeTranslator.GetErrors | utils/translations.ts:110 | returns the log's current contents |
| Translations.TypeSafeTranslator.ClearErrors | utils/translations.ts:111 | the log is empty afterwards |
| Translations.SnapshotIsStable | utils/translations.ts:110-112 | a snapshot taken by getErrors is unchanged by later calls, and hasErrors holds exactly when the log is non-empty |
| Translations.TypeSafeTranslator.HasErrors | utils/translations.ts:112 | true exactly when the log is non-empty |
| Translations.GetAllKeys | utils/translations.ts:132-147 | emits the leaf paths in `for…in` order |
| Translations.ValidateTranslationCompleteness | utils/translations.ts:120-179 | missing keys are the primary paths absent from the secondary list, and extra keys the converse, both in traversal order; one error per missing key, carrying the primary value or ''; valid exactly when both lists are empty |
| Translations.CollectMissing | utils/translations.ts:153-164 | the first loop collects the primary keys not in the secondary list, with one error each |
| Translations.CollectExtra | utils/translations.ts:166-171 | the second loop collects the secondary keys not in the primary list |
| Translations.SelfCompletenessIsValid | utils/translations.ts:153-177 | a language compared with itself has no missing and no extra keys |
| Translations.GetAvailableTranslationKeys | utils/translations.ts:184-204 | the language's leaf paths |
| Translations.GetTranslationStats | utils/translations.ts:216-227 | total, missing and extra counts are the lengths of the leaf-path list and of the completeness lists against English; complete exactly when both counts are 0 |
| Translations.EnglishStatsAreComplete | utils/translations.ts:216-227 | English against itself is complete |
| Translations.FindUnusedTranslationKeys | utils/translations.ts:294-300 | the language's leaf paths not among the used keys, in order |
| Translations.WordRun | utils/translations.ts:237 | the longest prefix of `\w` characters |
| Translations.PlaceholderAt | utils/translations.ts:237 | a match of `{{\w+}}` at the start of the text, if there is one |
| Translations.InterpolateWithoutPlaceholder | utils/translations.ts:233-240 | a template without `{{` is returned unchanged |
| Translations.InterpolateNoVariables | utils/translations.ts:237-239 | when every variable is empty, each placeholder stays verbatim |
| Translations.InterpolateLiteralPrefix | utils/translations.ts:233-240 | text without '{' is copied through, and interpolation continues after it |
| Translations.InterpolatePlaceholderThen | utils/translations.ts:237-239 | a placeholder at the front becomes its variable's non-empty value, or stays verbatim when the name is unknown or empty, and the rest of the template is interpolated after it |
| Translations.InterpolateGreeting | utils/translations.ts:229-240 | text before a placeholder is kept and the placeholder is replaced, as in the usage example "Hello {{name}}" giving "Hello World" |
| Translations.InterpolateUnknownName | utils/translations.ts:237-239 | a name missing from the table stays verbatim even when other variables have values |
| Translations.InterpolatePlaceholder | utils/translations.ts:237-239 | a placeholder of a non-empty variable becomes the variable's value |
| Translations.Interpolate | utils/translations.ts:233-240 | the result is empty exactly when the template is |
| Translations.Pluralize | utils/translations.ts:245-268 | count 1 gives the singular; otherwise a non-empty plural; otherwise singular + "s" in English and the singular in Turkish |
| Translations.WithCount | utils/translations.ts:282-288 | Turkish never takes the suffix; English takes it for every count except 1 |
| Translations.FormatTranslationWithCount | utils/translations.ts:273-289 | builds the text from `t(key)` and `t('common.pluralSuffix')`, both of which log through `t` |
| Translations.TranslationKeyBuilder.constructor | utils/translations.ts:312-313 | a new builder has no parts |
| Translations.TranslationKeyBuilder.Navigation | utils/translations.ts:315-318 | appends "navigation" and returns the builder itself |
| Translations.TranslationKeyBuilder.Projects | utils/translations.ts:320-323 | appends "projects" and returns the builder itself |
| Translations.TranslationKeyBuilder.ProjectDetails | utils/translations.ts:325-328 | appends "projectDetails" and returns the builder itself |
| Translations.TranslationKeyBuilder.Common | utils/translations.ts:330-333 | appends "common" and returns the builder itself |
| Translations.TranslationKeyBuilder.Accessibility | utils/translations.ts:335-338 | appends "accessibility" and returns the builder itself |
| Translations.TranslationKeyBuilder.Key | utils/translations.ts:340-343 | appends the given segment and returns the builder itself |
| Translations.TranslationKeyBuilder.Build | utils/translations.ts:345-347 | the '.'-join of the parts; for dot-free parts, splitting it gives the parts back |
| Translations.BuildNavigationHome | utils/translations.ts:312-355 | a chain navigation().key('home').build() gives "navigation.home" |
| LanguageContext.Languages | context/LanguageContext.tsx:11-14 | every listed code names a language, and every language is listed |
| LanguageContext.IsValidLanguage | context/LanguageContext.tsx:57-59 | true exactly for the listed codes, "en" and "tr" |
| LanguageContext.AvailableLanguageInfos | context/LanguageContext.tsx:201-221 | one descriptor per language, in list order |
| LanguageContext.DescriptorFacts | context/LanguageContext.tsx:23-36 | in JSON the name is the native name; the current-language JSON adds `isRTL`, which the list's JSON omits |
| LanguageContext.Info | context/LanguageContext.tsx:23-36 | each descriptor carries its language's own code and is not right-to-left; name and native name differ only for Turkish |
| LanguageContext.FoldWalk | context/LanguageContext.tsx:82-86 | the `reduce` over the segments reaches the same node as the walk |
| LanguageContext.GetNestedValue | context/LanguageContext.tsx:82-86 | getNestedValue(obj, path) reaches the node the walk along `path.split('.')` reaches |
| LanguageContext.ErrorLog.constructor | context/LanguageContext.tsx:66 | the log starts empty |
| LanguageContext.ContextTranslator.constructor | context/LanguageContext.tsx:62-66 | a new translation function has its own empty log |
| LanguageContext.ContextTranslator.LogTranslationError | context/LanguageContext.tsx:68-80 | appends exactly one error |
| LanguageContext.ContextTranslator.Translate | context/LanguageContext.tsx:88-115 | returns the resolved text and appends exactly the error the resolution records |
| LanguageContext.ContextTranslator.GetErrors | context/LanguageContext.tsx:118 | returns the live log object itself |
| LanguageContext.ContextTranslator.ClearErrors | context/LanguageContext.tsx:119 | the log is empty afterwards |
| LanguageContext.TranslatorsAgree | context/LanguageContext.tsx:88-115 | the context translation function and the type-safe one answer the same text and log the same errors, namely the resolution's |
| LanguageContext.LiveLogSeesLaterErrors | context/LanguageContext.tsx:118 | the array getErrors returned shows errors logged after the call |
| LanguageContext.Other | context/LanguageContext.tsx:196 | a toggle always changes the language |
| LanguageContext.LanguageProvider.constructor | context/LanguageContext.tsx:139-140 | starts in `initialLanguage \|\| 'en'`, loading exactly when persisting, with nothing written |
| LanguageContext.LanguageProvider.Mount | context/LanguageContext.tsx:143-160 | loading always ends; a stored valid code is adopted; a missing, empty or invalid value, or a failing read, keeps the initial language; without persistence nothing is read; nothing is written |
| LanguageContext.LanguageProvider.SetLanguage | context/LanguageContext.tsx:163-192 | an invalid value only warns; otherwise it sets the language and calls the callback; when persisting and the write succeeds, the storage write, the cookie (unless that write fails) and one event follow; a failing write warns and skips the cookie and the event |
| LanguageContext.LanguageProvider.ToggleLanguage | context/LanguageContext.tsx:195-198 | switches to the other language and makes setLanguage's writes for that code: the callback, the stored value, the cookie, the event and the save warning, each under the same conditions |
| LanguageContext.LanguageProvider.CurrentLanguageInfo | context/LanguageContext.tsx:224-238 | the descriptor of the current language |
| LanguageContext.LanguageProvider.CurrentTranslator | context/LanguageContext.tsx:241 | `t` is a fresh translation function for the current language, falling back to English, with an empty log |
| LanguageContext.ToggleTwice | context/LanguageContext.tsx:195-198 | toggling twice restores the language |
| LanguageContext.PersistenceRoundTrip | context/LanguageContext.tsx:143-192 | a language saved by setLanguage is adopted by a later provider on mount |
| LanguageContext.SavedLanguageOfCode | context/LanguageContext.tsx:150-153 | a stored language code is read back as that language |
| LanguageContext.SavedLanguage | context/LanguageContext.tsx:150-153 | a stored value selects a language exactly when it is a valid code, and then the language of that code |
| TranslationStore.LanguageListIsComplete | data/translations/index.ts:12-15 | the list holds both languages once each, and the default language is in it |
| TranslationStore.NestedStringIsTranslation | data/translations/index.ts:34-71 | where getNestedTranslation finds a string, getTranslation returns it for every fallback; everywhere else getTranslation returns `fallback \|\| keyPath` |
| TranslationStore.GetTranslation | data/translations/index.ts:34-52 | the language's string at the path when there is one, else `fallback \|\| keyPath`, which is never empty for a non-empty path |
| TranslationStore.GetNestedTranslation | data/translations/index.ts:55-71 | finds a string exactly where the language holds one at the path, and then that string |
| TranslationStore.LookupsReadOneLanguage | data/translations/index.ts:40-60 | both lookups depend only on the requested language's file |
| TranslationStore.EmptyPathFindsNothing | data/translations/index.ts:39-48 | in a well-formed file the empty path reaches no string |
| TranslationStore.GetTranslationAgreesWithResolve | data/translations/index.ts:34-52 | getTranslation answers what `t` answers when the fallback language is the language itself |
| TranslationStore.NoCrossLanguageFallback | data/translations/index.ts:34-52 | where Turkish lacks a key that English has, getTranslation answers `fallback \|\| keyPath` while `t` answers the English string |
| TranslationValidation.GetObjectPaths | utils/translationValidation.ts:27-43 | emits the leaf paths in `for…in` order, one per string or array leaf and none for nested objects |
| TranslationValidation.GetValueByPath | utils/translationValidation.ts:46-59 | the loop's cursor reaches the walk's node, or undefined |
| TranslationValidation.ObjectPathsLeadToLeaves | utils/translationValidation.ts:27-59 | in a well-formed tree, every emitted path leads back to a string or array leaf |
| TranslationValidation.Classify | utils/translationValidation.ts:169-201 | the four classes are tested in order: missing, then a whitespace-only string, then a `typeof` mismatch, then valid |
| TranslationValidation.OutcomeBranches | utils/translationValidation.ts:86-137 | what one path adds: one missing-key error, one empty-value warning, one type-mismatch error, or a valid key; an array-length mismatch adds a warning and still counts as valid |
| TranslationValidation.RunStep | utils/translationValidation.ts:82-138 | the tally after one more path adds that path's outcome |
| TranslationValidation.Run | utils/translationValidation.ts:77-139 | the tally only grows: errors and warnings are extended, the counters never fall, and the counters grow by at most the number of paths |
| TranslationValidation.ValidateLanguage | utils/translationValidation.ts:155-214 | the loop's tally over the reference paths, valid exactly when there is no error, with total = the number of reference paths |
| TranslationValidation.CheckLanguagePath | utils/translationValidation.ts:169-200 | one iteration adds that path's outcome to the tally |
| TranslationValidation.ValidateTranslations | utils/translationValidation.ts:62-152 | checks every language except English against the English paths; the same tally as validateLanguage for Turkish, with "in <language>" in the messages |
| TranslationValidation.CheckTranslationPath | utils/translationValidation.ts:82-138 | one iteration adds that path's outcome, including the array-length warning |
| TranslationValidation.FindMissingKeys | utils/translationValidation.ts:217-233 | the reference paths the language cannot walk, in order |
| TranslationValidation.AddIfMissing | utils/translationValidation.ts:225-230 | one iteration appends the path exactly when it is missing |
| TranslationValidation.CountKindAppend | utils/translationValidation.ts:169-201 | error counts and key paths of one kind add up over concatenated error lists |
| TranslationValidation.OutcomeErrors | utils/translationValidation.ts:173-200 | one path adds at most one error, and a missing-key error exactly when the walk fails |
| TranslationValidation.RunCounts | utils/translationValidation.ts:169-201 | valid + missing + empty + type-mismatch counts grow by exactly the number of paths, and the missing counter equals the number of missing-key errors |
| TranslationValidation.ValidateLanguageSummary | utils/translationValidation.ts:164-213 | validKeys + missingKeys + emptyValues + the number of type mismatches = totalKeys; missingKeys = the number of missing-key errors; valid exactly when there is no error |
| TranslationValidation.MissingStep | utils/translationValidation.ts:173-180 | one path adds its key path to the missing-key errors exactly when it is missing |
| TranslationValidation.RunMissingPaths | utils/translationValidation.ts:169-180 | the missing-key errors' key paths are the missing reference paths, in order |
| TranslationValidation.FindMissingKeysMatchesErrors | utils/translationValidation.ts:217-233 | findMissingKeys(l) lists the key paths of validateLanguage(l)'s missing-key errors, in reference order |
| TranslationValidation.OnlyReferencePathsMatter | utils/translationValidation.ts:82-84 | two translations that agree on the reference paths validate identically, so keys present only in another language never produce an error |
| TranslationValidation.ReferenceAgainstItself | utils/translationValidation.ts:77-78 | English checked against itself yields no error, which is why validateTranslations skips it |
| TranslationValidation.StylesCountAlike | utils/translationValidation.ts:82-138 | the two functions' loops keep the same valid, missing and empty counters and the same number of errors; only messages and the array-length warning differ |
| TranslationValidation.ValidateTranslationsIsTurkish | utils/translationValidation.ts:62-152 | validateTranslations' counters are validateLanguage('tr')'s |
| TranslationTesting.MockTranslator.constructor | utils/translationTesting.ts:16-19 | the mock starts with the given table and an empty log |
| TranslationTesting.MockTranslator.Translate | utils/translationTesting.ts:21-35 | a non-empty table entry is returned and logs nothing; otherwise `fallback \|\| key` is returned and exactly one error naming English and that value is logged |
| TranslationTesting.MockTranslator.GetErrors | utils/translationTesting.ts:38 | returns the log's current contents |
| TranslationTesting.MockTranslator.ClearErrors | utils/translationTesting.ts:39 | the log is empty afterwards |
| TranslationTesting.MockTranslator.HasErrors | utils/translationTesting.ts:40 | true exactly when the log is non-empty |
| TranslationTesting.MockMissIsLogged | utils/translationTesting.ts:21-40 | after a miss (no entry, or an empty one) the answer is non-empty, hasErrors holds, and the last error records the answer |
| TranslationTesting.TestTranslationKeyExistence | utils/translationTesting.ts:48-63 | one entry per requested language: the input keys, in order, that are among that language's missing keys against English |
| TranslationTesting.EnglishMissesNothing | utils/translationTesting.ts:54-59 | for English the entry is always empty |
| TranslationTesting.TestTranslationFunction | utils/translationTesting.ts:98-109 | one outcome per case, in order; passed is actual == expected when a non-empty expected is given, else actual != key |
| TranslationTesting.TranslationFunctionChecks | utils/translationTesting.ts:98-109 | against `t`, a case with an empty key passes when its non-empty fallback is also its expected value, and so does a case for a key neither language holds |
| TranslationTesting.InterpolationChecks | utils/translationTesting.ts:115-125 | the check uses interpolateTranslation's substitution: templates without `{{`, and tables of empty values, pass against the template itself; a single placeholder passes against its value |
| TranslationTesting.TestTranslationInterpolation | utils/translationTesting.ts:115-125 | a passing check expects an empty result exactly for an empty template |
| TranslationTesting.TestPluralization | utils/translationTesting.ts:146-164 | one outcome per case, in order; actual is pluralize's answer and passed is actual == expected |
| TranslationTesting.PluralActualIsPluralize | utils/translationTesting.ts:147-157 | the test's own branches compute exactly pluralize |
| Validators.IsValidLanguage | types/validators.ts:16-18 | true exactly for the strings "en" and "tr", the strings that name a language |
| Validators.IsValidPlatform | types/validators.ts:20-22 | true exactly for the strings that name a platform filter value |
| Validators.IsValidPlatformNamesFilter | types/validators.ts:20-22 | the code of every filter value passes the check |
| Validators.ValidateRequired | types/validators.ts:121-126 | fails exactly on null and undefined, with "<field> is required"; otherwise returns the value |
| Validators.ValidateString | types/validators.ts:128-139 | a non-string, then a too-short string, then a too-long one fail, each with its own message; otherwise the value is returned unchanged |
| Validators.ValidateNumber | types/validators.ts:141-152 | a non-number, then a value below the minimum, then one above the maximum fail; otherwise the value is returned |
| Validators.ValidateBoolean | types/validators.ts:154-159 | succeeds exactly on booleans, returning the value |
| Validators.MapItems | types/validators.ts:178-186 | succeeds exactly when every item passes, with the items' results in order; otherwise it fails with the first failing item's message as "<field>[<index>]: <message>" |
| Validators.ValidateArray | types/validators.ts:161-190 | a non-array fails; a too-short and then a too-long array fail with the length messages, whatever the items; without an item validator the array is returned unchanged, with one the items are mapped |
| Validators.ValidateArrayItems | types/validators.ts:178-186 | with an item validator the result maps the items in order, or reports the first failure at its index |
| Validators.ValidateObject | types/validators.ts:192-207 | a non-object fails; arrays count as objects; the validator's result is returned and its failure is prefixed with the field name |
| Validators.ValidateEnum | types/validators.ts:209-218 | succeeds exactly when the value is one of the allowed strings, returning it unchanged; fails with the list joined by ", " |
| Validators.ChecksAreIdempotent | types/validators.ts:121-218 | validating again what validateString, validateEnum or validateRequired accepted gives the same result |
| Validators.PathStringPush | types/validators.ts:296-298 | pushing a segment extends the dotted path by that segment |
| Validators.PathStringReadsBack | types/validators.ts:296-298 | splitting the current path on '.' gives back the stack of dot-free segments |
| Validators.ValidationContext.constructor | types/validators.ts:284-286 | a new context has no errors, no warnings and an empty path |
| Validators.ValidationContext.PushPath | types/validators.ts:288-290 | pushes the segment and extends the current path; the lists are unchanged |
| Validators.ValidationContext.GetCurrentPath | types/validators.ts:296-298 | empty for an empty stack; for dot-free segments, splitting the path on '.' gives the stack back |
| Validators.ValidationContext.PopPath | types/validators.ts:292-294 | drops the last segment, if there is one; the lists are unchanged |
| Validators.ValidationContext.AddError | types/validators.ts:300-307 | appends exactly one error whose field is the current path; the warnings and the path are unchanged |
| Validators.ValidationContext.AddWarning | types/validators.ts:309-316 | appends exactly one warning whose field is the current path; the errors and the path are unchanged |
| Validators.ValidationContext.GetResult | types/validators.ts:318-324 | valid exactly when there is no error, with copies of both lists |
| Validators.ValidationContext.Reset | types/validators.ts:326-330 | empties errors, warnings and the path |
| Validators.PushThenPop | types/validators.ts:288-298 | pushPath followed by popPath restores the path and the current path string |
| Validators.NestedErrorField | types/validators.ts:288-324 | an error added after pushPath(s) names "<path>.s" and makes the result invalid |
| Projects.ParsePlatformFilter | data/projects.ts:236-241 | a string names a filter exactly when it is one of the filter codes |
| Projects.GetProjectsByPlatform | data/projects.ts:223-226 | 'all' returns every project; no filter returns more projects than there are |
| Projects.ProjectsByPlatformMembers | data/projects.ts:223-226 | a platform filter keeps exactly the projects of that platform |
| Projects.PlatformsPartition | data/projects.ts:223-226 | the web, android and ios lists together are as long as the catalogue |
| Projects.GetFeaturedProjects | data/projects.ts:228-230 | never returns more projects than there are |
| Projects.FeaturedProjectsMembers | data/projects.ts:228-230 | keeps exactly the featured projects |
| Projects.FirstWithId | data/projects.ts:232-234 | `find` stops at the first project with the id |
| Projects.GetProjectById | data/projects.ts:232-234 | found exactly when some project has the id; the result is the first such project |
| Projects.ProjectFoundById | data/projects.ts:232-234 | in a list of distinct ids, each project's id finds that project |
| Projects.OptionIndex | data/projects.ts:236-241 | each filter has exactly one tab in `platformOptions` |
| Projects.Localize | data/projects.ts:248-258 | a truthy `projectData` entry for the id gives the project that entry's title, description, purpose and features; with no entry or a falsy one the project is unchanged; every non-text field is kept |
| Projects.GetLocalizedProjects | data/projects.ts:244-260 | same length and order; each project keeps its id, platform, technologies, links, featured flag and date; a project with a truthy entry in the language's `projectData` takes that entry's four texts, any other project is unchanged |
| Projects.LocalizedOnlyTurkishForTr | data/projects.ts:245 | any language other than 'tr' gets the English data |
| Projects.PlatformFilterSameShape | data/projects.ts:262-269 | filtering by platform keeps the same ids for lists of the same shape |
| Projects.FeaturedFilterSameShape | data/projects.ts:271-273 | filtering by the featured flag keeps the same ids for lists of the same shape |
| Projects.GetLocalizedProjectsByPlatform | data/projects.ts:262-269 | the localised list holds the ids of the plain platform filter, in order, and every project in it matches the filter |
| Projects.GetLocalizedFeaturedProjects | data/projects.ts:271-273 | the localised list holds the ids of the plain featured list, in order, and every project in it is featured |
| Projects.GetLocalizedProjectById | data/projects.ts:275-280 | defined exactly when getProjectById is; then it has the requested id and agrees with the plain lookup on every non-text field |
| Projects.LocalizedFirstMatch | data/projects.ts:275-280 | lists of the same shape find matching projects by id |
| ProjectFilter.OptionCount | components/ProjectFilter.tsx:37-57 | `platformOptions.length` is 4 |
| ProjectFilter.PrevIndex | components/ProjectFilter.tsx:37 | ArrowLeft moves to i - 1, and from 0 wraps to n - 1 |
| ProjectFilter.NextIndex | components/ProjectFilter.tsx:44 | ArrowRight moves to i + 1, and from n - 1 wraps to 0 |
| ProjectFilter.PrevNextInverse | components/ProjectFilter.tsx:35-48 | ArrowLeft and ArrowRight undo each other |
| ProjectFilter.FindOption | components/ProjectFilter.tsx:66 | `findIndex` gives the first tab with the value, or -1 when there is none |
| ProjectFilter.FindOptionIsTab | components/ProjectFilter.tsx:66 | every filter is found at its tab |
| ProjectFilter.FilterTabs.constructor | components/ProjectFilter.tsx:15-16 | not animating, focus index -1, no change requested |
| ProjectFilter.FilterTabs.SyncFocus | components/ProjectFilter.tsx:65-68 | the focused index becomes the active filter's tab position |
| ProjectFilter.FilterTabs.HandleFilterClick | components/ProjectFilter.tsx:20-25 | clicking the active filter, or any filter while animating, does nothing; otherwise it starts animating and requests the change exactly once |
| ProjectFilter.FilterTabs.EndAnimation | components/ProjectFilter.tsx:24 | the timer ends the animation and changes nothing else |
| ProjectFilter.FilterTabs.HandleKeyDown | components/ProjectFilter.tsx:27-63 | Enter and Space click the tab; the arrow keys, Home and End move focus with wrap-around and keep it in [0, 4); any other key changes nothing |
| ProjectFilter.DoubleClickRequestsOnce | components/ProjectFilter.tsx:20-25 | two clicks before the animation ends request the change once |
| ProjectsGrid.GetFilterLabel | components/ProjectsGrid.tsx:84-89 | 'all' uses `projects.platform.all`; other filters use `projects.platform.<filter>`, or the raw filter name when `t` answers '' |
| ProjectsGrid.PlatformLabelNeverEmpty | components/ProjectsGrid.tsx:88 | a platform's label is never empty |
| ProjectsGrid.EmptyDescription | components/ProjectsGrid.tsx:57 | `noActiveProjects` for 'all', else the label followed by `noProjectsInCategory` |
| ProjectsGrid.Announcement | components/ProjectsGrid.tsx:28-31 | the announcement begins with the filter's label |
| ProjectsGrid.AnnouncementTellsCounts | components/ProjectsGrid.tsx:28-31 | different counts under the same filter are announced differently |
| ProjectsGrid.SelectView | components/ProjectsGrid.tsx:36-81 | loading wins; the empty view is shown exactly when not transitioning and the filtered list is empty; otherwise the grid shows the filtered list |
| ProjectsGrid.GridState.constructor | components/ProjectsGrid.tsx:16-17 | nothing filtered and not transitioning |
| ProjectsGrid.GridState.PropsChanged | components/ProjectsGrid.tsx:21-22 | new props start a transition and keep the old list |
| ProjectsGrid.GridState.TransitionEnds | components/ProjectsGrid.tsx:23-31 | the timer stores the filtered projects, ends the transition and sets the announcement |
| ProjectsGrid.FilterSettles | components/ProjectsGrid.tsx:21-81 | after the transition the view is empty exactly when no project matches, and the grid shows the projects of that filter |
| ProjectsGrid.LoadingWins | components/ProjectsGrid.tsx:36-46 | while loading, only the loading view is shown |
| ProjectCard.GetPlatformLabel | components/ProjectCard.tsx:40-51 | any string other than the three platform codes is returned unchanged |
| ProjectCard.PlatformLabelMatchesTab | components/ProjectCard.tsx:40-51 | the card names each platform as its filter tab does: Web, Android, iOS |
| ProjectCard.VisibleFeatures | components/ProjectCard.tsx:104-106 | the first min(4, n) features |
| ProjectCard.MoreFeatures | components/ProjectCard.tsx:113-119 | present exactly when there are more than four features |
| ProjectCard.FeatureListsPartition | components/ProjectCard.tsx:104-125 | the visible and the hidden features together are the feature list, in order |
| ProjectCard.Render | components/ProjectCard.tsx:66-178 | heading and description ids match the article's aria references; the features section exists exactly for a present, non-empty list; the links and the completion line exist exactly for present, non-empty values and point at them |
| ProjectCard.CardIdsAreDistinct | components/ProjectCard.tsx:71-94 | different projects get different element ids |
| ProjectCard.LinkKeyDown | components/ProjectCard.tsx:53-58 | Enter and Space open the link's URL; other keys open nothing |
| ProjectCard.LinkKeysOpenProjectUrls | components/ProjectCard.tsx:140-166 | Enter or Space on a rendered project or GitHub link opens that project's own non-empty URL |
| ProjectCard.LocalizedCardKeepsLinks | components/ProjectCard.tsx:141-178 | localising a project changes neither its card's links, its completion line nor its ids |
| LanguageToggle.TargetName | components/LanguageToggle.tsx:35 | the name of the language a click switches to |
| LanguageToggle.Render | components/LanguageToggle.tsx:22-59 | only the indicator while loading; otherwise the label is "Switch to <other language>" and aria-pressed = aria-checked = (language is tr) |
| LanguageToggle.LabelFlipsOnToggle | components/LanguageToggle.tsx:35-37 | after a toggle the label offers the previous language and aria-pressed flips |
| LanguageToggle.HandleToggle | components/LanguageToggle.tsx:10-13 | while loading the provider is left unchanged; otherwise its language becomes the other one, with the callback, storage, cookie, event and warning writes of toggleLanguage |
| LanguageToggle.HandleKeyDown | components/LanguageToggle.tsx:15-20 | Enter and Space act as handleToggle, with the same writes; any other key leaves the provider unchanged |
| LanguageToggle.ClickFromEnglish | components/LanguageToggle.tsx:30-33 | a click from English gives Turkish, stores 'tr' and then offers English |
| DynamicLayout.InitialLanguage | components/DynamicLayout.tsx:9-16 | 'tr' exactly when the stored value is 'tr' and the read succeeds; 'en' otherwise |
| DynamicLayout.StoredLanguage | components/DynamicLayout.tsx:24 | any non-empty stored string, unchecked; 'en' when absent or empty |
| DynamicLayout.ReadsAgreeOnCodes | components/DynamicLayout.tsx:9-26 | on a stored language code the mount and event reads agree |
| DynamicLayout.Layout.constructor | components/DynamicLayout.tsx:6 | starts in English, with the document language the same |
| DynamicLayout.Layout.Mount | components/DynamicLayout.tsx:18-20 | adopts the initial language in the state and the document, and starts listening |
| DynamicLayout.Layout.HandleLanguageChange | components/DynamicLayout.tsx:22-29 | adopts the stored value in the state and the document; a failing read warns and changes nothing |
| DynamicLayout.Layout.Unmount | components/DynamicLayout.tsx:35-38 | stops listening and keeps the language |
| DynamicLayout.LayoutFollowsProvider | components/DynamicLayout.tsx:22-26 | after a persisted setLanguage, the event makes the document language the new code |
| DynamicLayout.EventAcceptsAnyStoredString | components/DynamicLayout.tsx:24-26 | an event adopts a stored string that isValidLanguage rejects |
| ExperienceCard.MonthDiff | components/ExperienceCard.tsx:20 | the difference of the months counted from year 0 |
| ExperienceCard.MonthDiffAdds | components/ExperienceCard.jsx:10-11 | month differences add up along consecutive spans, and a date is 0 months from itself |
| ExperienceCard.SpanOf | components/ExperienceCard.tsx:22-31 | under 12 months stays months; otherwise whole years, plus the remaining 1..11 months when there are some |
| ExperienceCard.CalculateDuration | components/ExperienceCard.tsx:16-34 | the text by the size of the difference, with 'Present' and 'Günümüz' meaning now and the unit words from `t` |
| ExperienceCard.CalculateDurationJsx | components/ExperienceCard.jsx:6-21 | the same three shapes with the English words, and only 'Present' meaning now |
| ExperienceCard.SuffixOnlyAboveOne | components/ExperienceCard.tsx:27-33 | the plural suffix is added exactly for counts above one |
| ExperienceCard.JsxIsTsxInEnglish | components/ExperienceCard.jsx:6-21 | the older version is the newer one with `t` answering its fallbacks, except for 'Günümüz' |
| ExperienceCard.GunumuzOnlyInTsx | components/ExperienceCard.jsx:8 | 'Günümüz' means now only in the newer version; the older one parses it as a date |

## Left out

- `Date`: date parsing and the clock are function parameters (`parse`, `now`), so `new Date(...)` of an unparseable string is not modelled.
- The console output: the provider's and the layout's warnings are recorded as strings; `console.error` in the catch of `t` and the development-mode `console.warn` of logTranslationError (context/LanguageContext.tsx:77-79) are not.
- The `timestamp: new Date()` of every translation error (utils/translations.ts:81, context/LanguageContext.tsx:73, utils/translationTesting.ts:30): `TranslationError` has no timestamp, because the clock is not modelled.
- `t` as a pure function: ProjectsGrid, ProjectCard, ExperienceCard and the test cases of `testTranslationFunction` take `t` as a function from keys to texts, so the errors those calls would log in the provider's translation function are not recorded.
- Floating point:
  - the `completeness` percentage of getTranslationStats (utils/translations.ts:224), so `TranslationStats` has no such field;
  - NaN and Infinity in validateNumber;
  - numbers in general are integers.
- `validateDate`, `validateUrl` and `validateEmail`: they depend on `Date`, `URL` and the regex engine.
- The `isValidProject` and similar content type guards of types/validators.ts: they only check the site's content shapes.
- Interpolate: variables are strings. A number variable is taken as its already printed form.
- Interpolate and the mock translation function: their tables are maps, so a prototype-inherited name is absent. In JavaScript, `variables[key]?.toString()` for "{{constructor}}" on `{}` yields the text of the `Object` function, and `mockTranslations['toString']` is a function; the model leaves such placeholders verbatim and treats such keys as misses.
- Reports:
  - generateValidationReport's Markdown text;
  - generateTranslationCoverageReport and runTranslationTestSuite;
  - performanceTestTranslation and memoryTestTranslation, which measure time and memory.
- React glue:
  - contexts and hooks;
  - useLanguage throwing outside a provider;
  - re-creating `t` on every render (its fresh log is `CurrentTranslator`);
  - JSX markup, CSS, icons and the card's animation delay.
- Browser I/O:
  - `setTimeout` timers are explicit methods (`EndAnimation`, `TransitionEnds`);
  - DOM focus is not modelled, and `window.open` is the URL `ProjectCard.LinkKeyDown` returns;
  - listener registration is a `listening` flag.
- The catch branches of `t`: nothing in the model throws, so the `fallback || key` of the catch is never taken.
- JSON files:
  - en.json and tr.json are arbitrary trees;
  - duplicate keys, the own array property `length` and prototype-inherited names such as `toString` and `constructor` are not modelled;
  - where a lemma needs unique, non-empty, dot-free keys, it assumes `WellFormed`.
- Projects.Localize: a `projectData` entry whose `title` or `description` is not a string is read as absent; one whose `features` is not an array of strings is read as absent; a truthy entry that is a string or an array has no such fields, so all four texts become absent, as in JavaScript.
- String length is counted in characters, not in UTF-16 code units as in `validateString`.
- The catalogue constant: `Projects.Catalogue` holds the nine projects, but no lemma is proved about its concrete contents. The filters are proved for every project list.
- ProjectFilter.FilterTabs.HandleKeyDown: the index comes from the rendering loop and is required to be a tab position.
