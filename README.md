# Smart Species Generator — a Dafny model of its generation core

The Smart Species Generator is a Foundry VTT module for the Savage Worlds
(SWADE) system. It makes up an alien species in three phases:

1. **Context analysis.** A narrative role and the active scene's name and
   notes become three weight maps: biology, culture and status.
2. **Core profile.** Three weighted rolls are made on the biology, culture
   and status tables. The tables are JSON files, loaded once, with a minimal
   built-in fallback for any file that fails to load.
3. **Detail synthesis.** This phase produces:
   - a name built from naming patterns (or the archetype plus a number);
   - a few distinct physical traits;
   - cultural traits;
   - a narrative hook whose category depends on the role;
   - a bundle of SWADE mechanics;
   - a quick reference.

   If any phase throws, the fixed "Voidborn" species is returned instead.

Around this core the model also covers:
- the fuller SWADE trait mapper (biology, culture and status switches, then a summary);
- the enhanced hook, trait and culture helpers;
- the `/species` chat command and the statistics counters;
- export dispatch, the CSV content and the mechanics HTML of the journal export;
- the display dialog's mechanics block;
- the generation dialog's seed defaults and validation.

## How the model is built

- **One module per source file.** Besides those, `JsValues` holds the
  JavaScript conventions and `Strings` the string built-ins. In `JsValues`:
  - `undefined` is `Option.None`;
  - a thrown `TypeError` is `Outcome.Thrown`;
  - `x || d` is `OrElse`;
  - a `Math.random()` draw is a `Unit`, a real in [0, 1);
  - an index `Math.floor(u * n)` is `PickIndex`.
- **Objects the source updates in place are classes**, each with a
  `modifies` frame:
  - the table store `RollTables.RollTableManager`;
  - the analysis context `ContextEngine.Context`;
  - the trait object `SwadeIntegration.SwadeTraits`;
  - the orchestrator `SpeciesGeneration.SpeciesGenerator`;
  - the statistics value `MainCommands.GenerationStats`.
- **A loop of the source is a method with a loop.** It is proved equal to a
  specification function: `SelectTraits`, `RollSpec`, `Dedup`, `LoadAll`,
  `ParseArgs`, `ExpandSpec`, `Section` and others. The properties the source
  promises are lemmas about those functions.
- **A table file's fetch is an input.** `outcomes` maps each file name that
  loaded to its data. A file missing from `outcomes` gets
  `createFallbackTable`.
- **Host globals are parameters:** the active scene, the scene name, the
  configured default role and speed, and the table manager.

## Model

| member | source | states |
|---|---|---|
| RollTables.RollTableManager.RollWeighted | scripts/core/rolltable-manager.js:104-130 | the roll loop returns exactly `RollSpec` of the store: the sentinel for a missing table or one without `entries`, undefined for an empty list, otherwise the reweighted entry the walk stops at |
| RollTables.RollWithoutEntries | scripts/core/rolltable-manager.js:105-109 | a missing table or one with no `entries` field yields the sentinel; an empty `entries` list yields undefined (the last element of an empty array) |
| RollTables.Reweighted | scripts/core/rolltable-manager.js:112-115 | one entry per input entry, equal to it once its old weight is put back; the new weight is (the base weight, or 1 when it is missing or 0) × (the key's multiplier, or 1 when it is missing or 0) |
| RollTables.ZeroMultiplierCountsAsOne | scripts/core/rolltable-manager.js:114 | a multiplier of 0 counts as 1, so the effective weight is the base weight and is never 0 |
| RollTables.Covering | scripts/core/rolltable-manager.js:118-127 | the walk stops at the first index whose running total reaches the roll, and runs out only if no running total does |
| RollTables.ChosenBracket | scripts/core/rolltable-manager.js:118-127 | a roll not above the total stops the walk at an entry `i` with `prefix(i-1) < r <= prefix(i)` |
| RollTables.WalkStopsInside | scripts/core/rolltable-manager.js:118-129 | with non-negative weights the roll `u × total` never exceeds the total, so the last-entry fallback is unreachable and the chosen entry brackets the roll |
| RollTables.BracketDeterminesChoice | scripts/core/rolltable-manager.js:121-127 | with positive weights an index bracketing the roll is the chosen one (the bracket determines the choice) |
| RollTables.UptoMonotone | scripts/core/rolltable-manager.js:121-124 | with positive weights the running totals strictly increase |
| RollTables.ZeroDrawPicksFirst | scripts/core/rolltable-manager.js:121-127 | a roll of 0 picks the first entry |
| RollTables.RollPointInRange | scripts/core/rolltable-manager.js:119 | the roll `Math.random() × total` lies in [0, total] |
| RollTables.RollIsTableEntry | scripts/core/rolltable-manager.js:121-129 | for a non-empty table the result is one of its entries, reweighted |
| RollTables.SingleEntryAlwaysChosen | scripts/core/rolltable-manager.js:121-129 | a one-entry table always yields that entry, whatever the draw |
| RollTables.SingleUnitRoll | scripts/core/rolltable-manager.js:121-129 | a table of one unit-weight entry always yields that entry's key, whatever the weights and the draw |
| RollTables.SumNonNegative | scripts/core/rolltable-manager.js:118 | non-negative weights give a non-negative total |
| RollTables.RollSpecStops | scripts/core/rolltable-manager.js:124-126 | where the walk stops fixes the returned entry |
| RollTables.RollSpecRunsOut | scripts/core/rolltable-manager.js:129 | a walk that runs out returns the last reweighted entry |
| RollTables.RollTableManager.RollMultiple | scripts/core/rolltable-manager.js:135-144 | the result is `Dedup` of the `count` rolls: each defined roll whose key is new, in draw order |
| RollTables.DedupSound | scripts/core/rolltable-manager.js:136-143 | no two results share a key, there are at most as many results as rolls, and every result is one of the rolls |
| RollTables.DedupKeepsEveryKey | scripts/core/rolltable-manager.js:136-143 | a key appears among the results exactly when some defined roll has it |
| RollTables.DedupPrefix | scripts/core/rolltable-manager.js:136-143 | the results of a prefix of the rolls are a prefix of the results (first-draw order) |
| RollTables.DedupSnoc | scripts/core/rolltable-manager.js:138-141 | one more roll appends its entry exactly when it is defined and its key is new |
| RollTables.RollTableManager.RollSingle | scripts/core/rolltable-manager.js:149-151 | one weighted roll, equal to `RollSpec` |
| RollTables.RollTableManager.LoadTables | scripts/core/rolltable-manager.js:13-20 | the first call loads every table file; later calls leave the store and the load count unchanged, so a load starts at most once |
| RollTables.RollTableManager.LoadTablesInternal | scripts/core/rolltable-manager.js:22-44 | the store gains each file's data, or its fallback, under the file's stem, in file order |
| RollTables.RollTableManager.GetTable | scripts/core/rolltable-manager.js:156-161 | returns the named table if present; a missing name triggers the latched load first |
| RollTables.LoadedTablesComplete | scripts/core/rolltable-manager.js:25-42 | after loading, the store's keys are exactly the six table names, each holding fetched data or its fallback |
| RollTables.LoadAllKeys | scripts/core/rolltable-manager.js:25-42 | a name is stored exactly when some loaded file has it as stem |
| RollTables.LoadAllAt | scripts/core/rolltable-manager.js:25-42 | with distinct stems each file's stem holds that file's data or fallback |
| RollTables.LoadAllSnoc | scripts/core/rolltable-manager.js:27-40 | loading one more file adds exactly that file's entry |
| RollTables.FallbackShapes | scripts/core/rolltable-manager.js:49-99 | the biology, culture and status fallbacks each hold a single weight-1 entry (humanoid, nomadic, independent), and an unknown name gives an empty `entries` list |
| RollTables.TableFileStems | scripts/config.js:91-98 | six table files whose stems are, in order, the six distinct table names |
| RollTables.StemOf | scripts/core/rolltable-manager.js:32 | stripping `.json` from `base.json` gives `base` back |
| RollTables.RollTableManager.constructor | scripts/core/rolltable-manager.js:5-8 | an empty store with no load started |
| ContextEngine.AnalyzeContext | scripts/core/context-engine.js:8-39 | a fresh context whose narrative role is the seed's role or neutral; scene context and environment are set only with an active scene; the weights are those of the role, environment and campaign passes in that order |
| ContextEngine.Context.constructor | scripts/core/context-engine.js:11-18 | all three weight maps start empty, with no environment and no scene context |
| ContextEngine.ApplyRoleWeights | scripts/core/context-engine.js:44-60 | the maps become `RoleSpec` of the old ones and stay routed |
| ContextEngine.RolePassAssigns | scripts/core/context-engine.js:49-58 | after the role pass, each configured key holds exactly its multiplier |
| ContextEngine.ApplyEnvironmentWeights | scripts/core/context-engine.js:65-78 | the maps become `EnvironmentSpec` of the old ones and stay routed |
| ContextEngine.EnvironmentPassMultiplies | scripts/core/context-engine.js:69-77 | after the environment pass, each configured key holds (its prior value, or 1) × its multiplier |
| ContextEngine.ApplyCampaignWeights | scripts/core/context-engine.js:83-92 | the maps become `CampaignSpec` of the old ones and stay routed |
| ContextEngine.CampaignPassEffect | scripts/core/context-engine.js:88-91 | the campaign pass multiplies uc_adjacent by 1.2 and nomadic by 1.1 and changes nothing else |
| ContextEngine.AllyRaisesUcAdjacent | scripts/core/context-engine.js:44-92 | role ally gives uc_adjacent 1.8 (1.5 × 1.2) and academic 1.5 |
| ContextEngine.MysteriousInSpace | scripts/core/context-engine.js:44-78 | in a space scene the mysterious role's energy weight 2.0 becomes 3.0 |
| ContextEngine.NeutralWithoutScene | scripts/core/context-engine.js:8-92 | with no or neutral role and no scene only the two campaign weights are present |
| ContextEngine.RouteByMembership | scripts/core/context-engine.js:52-58 | because the enumerations are disjoint, a key is routed to a map exactly when it belongs to that map's enumeration |
| ContextEngine.SetAllRouted | scripts/core/context-engine.js:51-59 | assigning keeps every key in its own map and touches no key outside the pairs |
| ContextEngine.MulAllRouted | scripts/core/context-engine.js:69-77 | multiplying keeps every key in its own map and touches no key outside the pairs |
| ContextEngine.SetAllAt | scripts/core/context-engine.js:51-59 | with distinct keys each key ends up holding exactly its weight |
| ContextEngine.MulAllAt | scripts/core/context-engine.js:69-77 | with distinct keys each key ends up holding its prior value (or 1) × its weight |
| ContextEngine.LookupUntouched | scripts/core/context-engine.js:69-77 | a key outside the pairs keeps its value |
| ContextEngine.PassesKeepRouting | scripts/core/context-engine.js:44-92 | every pass keeps the biology map to archetype keys, and likewise for culture and status |
| ContextEngine.AnalyzedWeightsRouted | scripts/core/context-engine.js:8-39 | the analysed maps are always routed |
| ContextEngine.AnalyzeSceneEnvironment | scripts/core/context-engine.js:97-129 | the four-branch classification equals `SceneSpec` |
| ContextEngine.SceneTypeIsFirstMatch | scripts/core/context-engine.js:107-126 | the type is a group's name exactly when that group is the first, in the order space, urban, planetary, vessel, whose keywords occur; it is 'unknown' exactly when none occurs |
| ContextEngine.FirstGroup | scripts/core/context-engine.js:114-126 | the first group from `i` on whose keywords match, or none when no later group matches |
| ContextEngine.SceneMatchingIgnoresCase | scripts/core/context-engine.js:107-109 | a scene name classifies the same in any letter case |
| ContextEngine.SafeStringify | scripts/core/context-engine.js:134-151 | null or undefined gives '', a string its lower-case form, and the result is always lower case |
| ContextEngine.SceneText | scripts/core/context-engine.js:107-109 | the searched text `${name} ${notes}` is lower case |
| ContextEngine.MatchesKeywords | scripts/core/context-engine.js:156-158 | true exactly when some keyword occurs in the text |
| ContextEngine.GroupKindsDistinct | scripts/core/context-engine.js:115-124 | the four type names differ from each other and from 'unknown' |
| SpeciesGeneration.SpeciesGenerator.GenerateSpecies | scripts/core/species-generator.js:40-95 | initializes the store if needed and returns `GenerateSpeciesSpec` of the loaded tables: the synthesized species, or the fallback when a phase throws |
| SpeciesGeneration.GenerationFallsBack | scripts/core/species-generator.js:91-94 | a throw in the core profile or in synthesis yields exactly the fallback; a generated species keeps its three roll entries beside their keys, and its quick reference quotes its own hook, summary and traits |
| SpeciesGeneration.SynthesizedConsistent | scripts/core/species-generator.js:126-148 | a synthesized species keeps the three roll entries and a quick reference consistent with its fields |
| SpeciesGeneration.GeneratedSummaryNonEmpty | scripts/core/species-generator.js:40-95 | every species `generateSpecies` returns has a non-empty mechanical summary |
| SpeciesGeneration.FallbackStoreAt | scripts/core/rolltable-manager.js:35-38 | a table file that failed to load leaves its own fallback stored under its name |
| SpeciesGeneration.FallbackRoll | scripts/core/rolltable-manager.js:54-74 | a roll on the biology, culture or status fallback always yields humanoid, nomadic or independent, whatever the weights and the draw |
| SpeciesGeneration.FallbackCoreProfile | scripts/core/species-generator.js:100-121 | with every table file failed, the core profile is produced and is humanoid, nomadic and independent |
| SpeciesGeneration.FallbackName | scripts/core/species-generator.js:153-166 | on the fallback naming table a humanoid gets a name, and it is non-empty |
| SpeciesGeneration.FallbackTraits | scripts/core/species-generator.js:171-204 | on the fallback traits table a humanoid gets at least one physical trait |
| SpeciesGeneration.FallbackAvailability | scripts/core/species-generator.js:40-95 | when all six table files fail to load, generation still yields a generated (not the fixed Voidborn) humanoid nomadic independent species with a non-empty name, at least one physical trait and a non-empty mechanical summary |
| SpeciesGeneration.NothingFetched | scripts/core/species-generator.js:40-95 | the same when nothing at all was fetched: non-empty name, at least one physical trait, non-empty mechanical summary |
| SpeciesGeneration.SpeciesGenerator.constructor | scripts/core/species-generator.js:7-12 | a fresh, empty, not-yet-loaded table manager and an uninitialized generator |
| SpeciesGeneration.SpeciesGenerator.Initialize | scripts/core/species-generator.js:17-30 | loads the tables (at most once) and marks the generator initialized |
| SpeciesGeneration.SpeciesGenerator.GenerateCoreProfile | scripts/core/species-generator.js:100-121 | the result is `CoreProfileSpec` of the store: three rolls, each with its own weight map |
| SpeciesGeneration.CoreProfileKeepsRolls | scripts/core/species-generator.js:100-121 | the profile succeeds exactly when all three rolls are defined, each key is its roll's key and each full entry is kept; a throw means one of the three tables has an empty `entries` list |
| SpeciesGeneration.NameShape | scripts/core/species-generator.js:153-166 | without naming patterns the name is the archetype followed by a decimal number below 1000; with patterns, the name throws exactly when neither the archetype's nor the default pattern exists, and is otherwise a listed prefix followed by a listed suffix |
| SpeciesGeneration.SpeciesGenerator.GeneratePhysicalTraits | scripts/core/species-generator.js:171-204 | looks up the traits table (loading if needed) and returns `PhysicalTraitsSpec` of it |
| SpeciesGeneration.PhysicalTraitsShape | scripts/core/species-generator.js:171-204 | a missing table or archetype list gives the single placeholder; otherwise the traits are distinct members of the list, at most the trait count and at most the list's length, and at least one when the list is not empty |
| SpeciesGeneration.FirstPickKept | scripts/core/species-generator.js:194-199 | the first loop iteration always keeps its pick, so a non-empty list yields at least one trait |
| SpeciesGeneration.PickTraits | scripts/core/species-generator.js:192-200 | the picking loop equals `SelectTraits`; its result is duplicate-free, drawn from the list and at most the trait count long |
| SpeciesGeneration.SelectTraitsSound | scripts/core/species-generator.js:192-200 | picking extends the selection, keeps it duplicate-free and inside the list, and adds at most one trait per remaining iteration |
| SpeciesGeneration.DistinctSubsetBound | scripts/core/species-generator.js:192 | a duplicate-free selection from a list is no longer than the list |
| SpeciesGeneration.NumTraits | scripts/core/species-generator.js:192 | the trait count lies in 2..4 |
| SpeciesGeneration.CulturalTraitsFields | scripts/core/species-generator.js:209-221 | without culture data only the 'Unknown cultural patterns' style is set; with it all four fields are present, each the entry's own value or its named default |
| SpeciesGeneration.HookCategoryChoices | scripts/core/species-generator.js:236-250 | enemy picks political or resource, ally personal or resource, mysterious mysterious or temporal, and any other role political; the tie-break is on the draw 0.5 |
| SpeciesGeneration.NarrativeHookShape | scripts/core/species-generator.js:226-257 | the hook list falls back from the category to political to 'Unknown motivations'; the summary is a member of the list chosen, with the detailed text equal to the summary |
| SpeciesGeneration.BasicSummaryNonEmpty | scripts/core/species-generator.js:262-294 | the basic bundle always has a racial ability, and its summary (the abilities joined with ', ') is non-empty |
| SpeciesGeneration.GenerateSwadeTraitsBasic | scripts/core/species-generator.js:274-292 | the pushes build exactly `BasicMechanics` of the archetype |
| SpeciesGeneration.QuickReferenceShape | scripts/core/species-generator.js:299-307 | the pitch is `${archetype} ${culture} from ${statusData.name or status}`, the key traits are the first three or fewer physical traits, and the other fields quote the hook, summary and interaction style |
| SpeciesGeneration.FallbackSpeciesShape | scripts/core/species-generator.js:312-340 | the fallback is the humanoid nomadic independent "Voidborn" species with a non-empty summary and a quick reference consistent with its fields |
| SwadeIntegration.GenerateSwadeTraits | scripts/systems/swade-integration.js:10-33 | a fresh trait object holding `TraitsFor`: the biology, culture and status stages in order, then the summary |
| SwadeIntegration.ApplyBiologyTraits | scripts/systems/swade-integration.js:38-92 | the trait object gains the archetype's case contributions |
| SwadeIntegration.ApplyCultureTraits | scripts/systems/swade-integration.js:98-134 | the trait object gains the culture's case contributions |
| SwadeIntegration.ApplyStatusTraits | scripts/systems/swade-integration.js:140-169 | the trait object gains the status's case contributions |
| SwadeIntegration.GenerateMechanicalSummary | scripts/systems/swade-integration.js:175-192 | the summary equals `MechanicalSummary`, and it is empty exactly when there are no attributes, abilities or hindrances |
| SwadeIntegration.StageOnlyAppends | scripts/systems/swade-integration.js:20-27 | a stage only appends to the lists and never removes or reorders an attribute |
| SwadeIntegration.BiologyAttributes | scripts/systems/swade-integration.js:38-92 | avian sets agility +1; reptilian, insectoid and aquatic vigor +1; energy spirit +2; synthetic smarts +1; humanoid and hybrid none |
| SwadeIntegration.AttributesComeFromBiology | scripts/systems/swade-integration.js:20-30 | no culture or status case sets an attribute, so the attributes are exactly biology's one |
| SwadeIntegration.CultureStageShape | scripts/systems/swade-integration.js:98-134 | each listed culture appends exactly two skills and one edge and nothing else; an unlisted culture appends nothing |
| SwadeIntegration.StatusStageShape | scripts/systems/swade-integration.js:140-169 | rogue, extinct and emerging add one hindrance; uc_core and extinct add one racial ability; no status adds a skill; an unlisted status adds nothing |
| SwadeIntegration.BiologyCasesWellFormed | scripts/systems/swade-integration.js:39-92 | every archetype case grants a racial ability, and every attribute it sets is one of the five SWADE attributes |
| SwadeIntegration.SummaryEmptyIff | scripts/systems/swade-integration.js:175-192 | the summary is empty exactly when there are no attributes, abilities or hindrances |
| SwadeIntegration.SummaryOpensWithFirstPart | scripts/systems/swade-integration.js:178-189 | parts come in the order attributes, abilities, hindrances, and the abilities part names the first ability |
| SwadeIntegration.EveryArchetypeHasSummary | scripts/systems/swade-integration.js:39-92 | each of the eight archetypes yields a racial ability and a non-empty summary, whatever the culture and status |
| SwadeIntegration.SetAttribute | scripts/systems/swade-integration.js:49 | setting an attribute keeps every existing key in place and records the new value |
| SwadeIntegration.CaseIndex | scripts/systems/swade-integration.js:39 | a `switch` selects the first label equal to the value, or none when no label is |
| SwadeIntegration.CaseIndexOfLabel | scripts/systems/swade-integration.js:39 | with distinct labels, each label selects its own case |
| EnhancedGeneration.ExpandHook | scripts/core/enhanced-generation.js:96-115 | the first-match loop equals `ExpandSpec` and never shortens the hook |
| EnhancedGeneration.ExpandSpecFirstMatch | scripts/core/enhanced-generation.js:98-114 | the first pattern, in the order homeworld, technology, political, resource, found in the lower-cased hook gives its replacement plus the lower-cased hook, capitalised; with no match the hook is only capitalised |
| EnhancedGeneration.FirstPattern | scripts/core/enhanced-generation.js:107-113 | the first pattern from `i` on found in the text, or none when no later pattern is found |
| EnhancedGeneration.GenerateUsageSuggestions | scripts/core/enhanced-generation.js:120-136 | returns the suggestion the draw picks, which is always one of the built list |
| EnhancedGeneration.SuggestionsContent | scripts/core/enhanced-generation.js:121-135 | three base suggestions, plus the rescue one exactly when the hook contains 'missing' or 'lost' and the economic one exactly when it contains 'trade' or 'resource' |
| EnhancedGeneration.PlanetNameShape | scripts/core/enhanced-generation.js:141-149 | a planet name is one of the 8 prefixes followed by one of the 8 suffixes, 5 to 7 characters long |
| EnhancedGeneration.EnhancedPhysicalTraits | scripts/core/enhanced-generation.js:18-37 | the result equals `EnhancedTraitsSpec` of the reachable store |
| EnhancedGeneration.EnhancedTraitsShape | scripts/core/enhanced-generation.js:18-37 | no manager gives no traits; otherwise the archetype list, else the humanoid list, is used (a throw when neither exists), and the traits are distinct members of it, at most the trait count |
| EnhancedGeneration.EnhancedCulturalTraits | scripts/core/enhanced-generation.js:42-57 | the result equals `EnhancedCultureSpec` of the reachable store |
| EnhancedGeneration.EnhancedCultureShape | scripts/core/enhanced-generation.js:42-57 | the result is the four fields of the first culture entry whose key matches, or nothing when none matches or there is no manager |
| EnhancedGeneration.FindKey | scripts/core/enhanced-generation.js:47 | `find` returns the first entry with the key, or none when no entry has it |
| EnhancedGeneration.EnhancedNarrativeHook | scripts/core/enhanced-generation.js:62-91 | the result equals `EnhancedHookSpec` of the reachable store |
| EnhancedGeneration.EnhancedHookShape | scripts/core/enhanced-generation.js:62-91 | no manager gives the fixed hook; with one, the hook throws exactly when its list (category, then political) is missing or empty, and otherwise the summary is from it, the detailed text is its expansion and the suggestion is one of its suggestions |
| EnhancedGeneration.Replacements | scripts/core/enhanced-generation.js:98-103 | four openings, one per pattern in pattern order, naming the planet, the archetype, the culture and the status in turn, each ending in a space |
| Config.EnumerationsDisjoint | scripts/config.js:12-46 | no value is in more than one of the archetype, culture and status enumerations |
| Config.EnumerationsDistinct | scripts/config.js:12-64 | no enumeration lists a value twice |
| Config.MultipliersWellFormed | scripts/config.js:114-144 | every multiplier key is in exactly one enumeration, every multiplier exceeds 1 and no list repeats a key |
| Config.RoleListWellFormed | scripts/config.js:115-129 | each role's multiplier list is well formed |
| Config.EnvironmentListWellFormed | scripts/config.js:130-144 | each environment's multiplier list is well formed |
| Config.NeutralAndVesselContributeNothing | scripts/config.js:115-143 | neutral has no role entry and vessel no environment entry; the roles with multipliers are exactly enemy, ally and mysterious |
| Config.HandoutIsListed | scripts/config.js:210-215 | the four export formats include handout |
| MainCommands.DetectCommand | scripts/main.js:453-457 | a message is a command exactly when its lower-cased, trimmed text starts with '/species' |
| MainCommands.DetectCommandTokens | scripts/main.js:453-457 | the arguments are the space-split tokens after the first: rejoined with the first they give the command back, and none contains a space |
| MainCommands.HandleChatCommand | scripts/main.js:471-499 | quick generation exactly when there are no arguments, otherwise generation from the parsed seed |
| MainCommands.ParseChatArgs | scripts/main.js:479-498 | the pair loop equals `ParseArgs`; its role and speed are valid when set, and it sets neither notes nor auto-export |
| MainCommands.ParseKeepsValid | scripts/main.js:480-498 | parsing never sets an invalid role or speed and leaves notes and auto-export alone |
| MainCommands.ParseSnocPair | scripts/main.js:480-498 | a pair appended to an even-length list is applied last, so a later pair overrides an earlier one |
| MainCommands.ApplyPairEffect | scripts/main.js:484-497 | a role is kept only if it is one of the four roles, a speed only if fast or detailed, a setting always; any other key changes nothing |
| MainCommands.ChatCommandExamples | scripts/main.js:472-498 | a bare '/species' quick-generates; 'role ally' sets the ally role; 'speed slow' sets no speed |
| MainCommands.QuickGenerateSeed | scripts/main.js:331-335 | the seed holds the configured role and speed and the scene's name or 'Unknown location' |
| MainCommands.GenerationStats.UpdateGenerationStats | scripts/main.js:515-526 | the total rises by one; the archetype's count rises by one from 0 if absent; other counts are unchanged; the average becomes `(old*(n-1)+t)/n` |
| MainCommands.RunningAverageIsMean | scripts/main.js:519 | the running-average update keeps the average equal to the mean of all recorded times |
| ExportManager.ExportDispatch | scripts/core/export-manager.js:8-19 | exactly journal, csv and json succeed, undefined means journal, and the listed handout format throws |
| ExportManager.CsvHasEightRows | scripts/core/export-manager.js:161-178 | when no field holds a newline, splitting the CSV text at newlines gives back exactly its eight lines, the first the quoted header |
| ExportManager.CsvLineOfPair | scripts/core/export-manager.js:173-175 | a row is its two fields wrapped in quotes, unescaped, around a comma |
| ExportManager.CsvRows | scripts/core/export-manager.js:162-171 | eight two-cell rows |
| ExportManager.CsvLines | scripts/core/export-manager.js:173-175 | eight lines in row order, line k being row k's field name and value, each in double quotes, separated by a comma |
| ExportManager.PairLines | scripts/core/export-manager.js:173-175 | every two-cell row becomes its two fields quoted around a comma |
| ExportManager.FormatSwadeDetailsHtml | scripts/core/export-manager.js:109-139 | the appending builder equals `SwadeDetailsHtml` |
| ExportManager.SwadeDetailsHtmlShape | scripts/core/export-manager.js:109-139 | missing traits give the 'not available' paragraph; the 'no specific traits' paragraph appears exactly when abilities, hindrances and skills are all empty; abilities come first; edges never matter |
| Html.AppendSection | scripts/ui/species-display.js:115-121 | one `if (list.length > 0)` block appends exactly `Section(heading, list)` |
| Html.ListItemsAppend | scripts/ui/species-display.js:116-142 | item markup is one `<li>` per item, in list order, nothing between items |
| Html.ListItemsSingle | scripts/ui/species-display.js:118 | one item is `<li>item</li>` |
| Html.ListItemsLength | scripts/ui/species-display.js:116-142 | every item adds at least its nine tag characters |
| Html.SectionShape | scripts/ui/species-display.js:115-145 | a section is empty exactly when its list is, and otherwise opens with its heading |
| Html.SectionOpens | scripts/ui/species-display.js:115-145 | a section is empty or opens with its heading tag |
| Html.FourParts | scripts/ui/species-display.js:147 | the `||` fallback replaces the markup exactly when all four parts are empty |
| Html.FourSections | scripts/ui/species-display.js:115-147 | four sections then the fallback: the fallback appears exactly when every list is empty, the first section comes first and the last last |
| SpeciesDisplay.FormatSwadeDetails | scripts/ui/species-display.js:110-148 | the appending builder equals `SwadeDetails` |
| SpeciesDisplay.SwadeDetailsShape | scripts/ui/species-display.js:110-148 | missing traits give the 'not available' paragraph; the 'no specific traits' paragraph appears exactly when all four lists are empty; abilities come first and edges last |
| SpeciesDialog.ExtractFormDataDefaults | scripts/ui/species-dialog.js:236-251 | every seed field is present; blanks default to neutral, the scene name then 'Unknown location', fast and '' |
| SpeciesDialog.QuickGenerateOverrides | scripts/ui/species-dialog.js:202-207 | quick generation forces speed fast and auto-export on, and keeps the rest of the form's seed |
| SpeciesDialog.ValidateSeedMeaning | scripts/ui/species-dialog.js:256-272 | a seed is accepted exactly when the role is one of the four and the speed one of the two, whatever the setting and notes; the role is checked first |
| SpeciesDialog.DefaultsValidate | scripts/ui/species-dialog.js:236-272 | a form with blank or valid role and speed yields an accepted seed, as does its quick-generate seed |

## Left out

- Table fetching (`fetch`, `response.json()`) is not modelled. Each file's result is an input: its data, or absence for a failed fetch.
- `Promise.all` and the load promise latch are modelled as a sequential `loadStarted` flag with a ghost load counter.
- Every `Math.random()` call is a `Unit` parameter. `Draws` bundles the generator's draws. It must carry at least four trait draws, one per possible iteration of the trait loop, whose count is at most 4.
- Left out as wall-clock values with no behaviour: `performance.now`, `Date.now`, `toISOString`, the `_metadata` timing block and the seed timestamp.
- Left out as host UI: console logging, notifications, dialogs, settings registration, hooks, keybindings, rendering and the GM check.
- Weights and times are exact `real`s. IEEE rounding is not modelled; in JavaScript 1.5 × 1.2 is 1.7999….
- Table JSON files are datatypes, not arbitrary JSON:
  - an `entries` list of entries with the fields the core reads;
  - a name → list map for the trait and hook tables;
  - naming patterns.

  Other JSON shapes are not represented. Each naming pattern is assumed to hold a prefix and a suffix list.
- `String.prototype.toLowerCase` and the first-character `toUpperCase` are modelled on ASCII letters only.
- `generateJournalHTML` and the journal entry and folder creation are left out, as is `downloadFile`. The JSON export string from `JSON.stringify` is also not modelled. The model covers the dispatch, file names and CSV text.
- EnhancedGeneration.generateSWADETraits, which only delegates to the SWADE mapper, is not modelled separately.
- The enhanced helpers reach the table manager as `game.speciesGenerator.generator.rollTableManager`. `main.js` never sets that path (scripts/main.js:46-55), so the manager is a nullable parameter, where `null` means unreachable.
- The fallback species omits skills, edges and attributes. The model shows these as empty lists.
- Where the code and its documented intent disagree, the model follows the code:
  - `rollWeighted` returns undefined, not the sentinel, for an empty `entries` list.
  - A zero multiplier counts as 1.
  - The walk stops at the first running total that is `>=` the roll.
  - The orchestrator sets the hook's detailed text equal to its summary and never calls `expandHook`.
