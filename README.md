# City exploration task generator: a verified model of its front-end core

This project models the core of a city-exploration app in Dafny. The app is a
React front end whose whole look switches between three themes ("vintage",
"agent", "pixel"). A small Python endpoint asks a language model for
exploration tasks and cleans the reply before parsing it.

The model has one module per source file:

- **`ThemeContext`**:
  - the theme registry, the provider's current theme and the restore from browser storage;
  - persistence under the key `"theme"`;
  - propagation of the chosen configuration into the root element as CSS custom properties, the `data-theme` attribute and the class name.
  - Browser storage, the root element's style and its attributes are maps owned by the `ThemeProvider` class.
- **`ThemeSwitcher`**: the menu that lists the registry's themes, highlights the current one, and sets and persists a new choice.
- **`Auth`**:
  - the login and registration form: field-by-field validation into an error map;
  - the email regular expression, proved equal to a split-based check;
  - input changes, the submit guard, the mode switch and the password-visibility toggles.
- **`TaskDetails`**:
  - the task list and the set of completed task ids;
  - the completion rate, total points and the all-done banner;
  - the pixel status bar, the difficulty labels and the share dialog.
- **`TaskGeneration`**: the generation form, its guard, the three looks' disabled buttons, and the choices the page offers.
- **`AgentTerminal`**:
  - the typewriter loading sequence, as a step function with a proof of when it completes and how long it takes;
  - its progress line;
  - the command input and the button's colour variants.
- **`QuestService`** (urban-explorer/main.py):
  - the request's theme literal with its default;
  - the "CRITICAL" theme guideline;
  - the cleaning chain `strip().lstrip("```json").rstrip("```").strip()`. `lstrip` and `rstrip` are modelled as character-set strips, as Python defines them.

**Events.** React effects and timers are explicit methods that a caller invokes in order: `ThemeProvider.Mount`, `LoadingSequence.Tick`, `TaskDetailsPage.LoadTasks`, `TaskGenerationPage.GenerationFinished` and `AuthPage.SubmitSettled`.

**String lengths.** JavaScript `.length` counts UTF-16 code units, modelled as `Auth.Utf16Length`. JavaScript `\s` and Python `str.isspace` are modelled as explicit character sets.

**Behaviour worth knowing, as the code has it:**
- `setTheme` stores its argument unchecked and does not catch storage errors (src/contexts/ThemeContext.tsx:174-177).
- Custom-property names are `--color-<field>`, `--font-<field>` and `--effect-<field>`, with the camel-case field name verbatim, as in `--color-textSecondary` (src/contexts/ThemeContext.tsx:153-165).
- The theme switcher's descriptions ask for `var(--color-text-secondary)`, which no theme sets (`ThemeContext.KebabNameNeverWritten`).

## Model

| member | source | states |
|---|---|---|
| ThemeContext.ParseTheme | src/contexts/ThemeContext.tsx:36-118 | registry lookup by string: a hit returns the theme whose key is the string; a miss means no theme has that key |
| ThemeContext.ThemeKey | src/contexts/ThemeContext.tsx:4 | the key of each theme; no ensures of its own: `KeyRoundTrip` and `ParseTheme` show that key and lookup invert each other |
| ThemeContext.KeyRoundTrip | src/contexts/ThemeContext.tsx:36-118 | looking up a theme's own key always finds that theme |
| ThemeContext.Config | src/contexts/ThemeContext.tsx:36-118 | every registry entry's `name` equals its key; its display name and every color, font and effect value are non-empty |
| ThemeContext.ColorEntries | src/contexts/ThemeContext.tsx:7-33 | `Object.entries(config.colors)` yields the eleven color fields in declaration order |
| ThemeContext.FontEntries | src/contexts/ThemeContext.tsx:7-33 | the font entries are primary, secondary and mono, in order |
| ThemeContext.EffectEntries | src/contexts/ThemeContext.tsx:7-33 | the effect entries are blur, shadow and glow, in order |
| ThemeContext.IndexOfTheme | src/contexts/ThemeContext.tsx:36-118 | each theme has a position in the registry's declaration order |
| ThemeContext.AvailableThemes | src/contexts/ThemeContext.tsx:180-183 | one option per registry entry, in declaration order, each labelled with that entry's display name |
| ThemeContext.AvailableThemesOnce | src/contexts/ThemeContext.tsx:180-183 | no theme is offered twice, and each is offered at its own index |
| ThemeContext.VarKeyInjective | src/contexts/ThemeContext.tsx:153-165 | two (group, field) pairs share a custom-property name only if they are the same pair |
| ThemeContext.VarsOf | src/contexts/ThemeContext.tsx:153-165 | one group's forEach of `setProperty`, later writes overriding earlier; no ensures of its own: see `VarsOfDomain`, `VarsOfLookup`, `VarsOfSameKeys` |
| ThemeContext.ThemeVariables | src/contexts/ThemeContext.tsx:153-165 | the properties the three forEach loops write, in order; no ensures of its own: see `ThemeVariablesDomain`, `ThemeVariableValue`, `ThemeVariablesSameKeys` |
| ThemeContext.AppliedStyle | src/contexts/ThemeContext.tsx:148-171 | the root style after propagation; no ensures of its own: see `AppliedStyleHasEveryField`, `ApplyIdempotent`, `ApplyOverwrites` |
| ThemeContext.Entries | src/contexts/ThemeContext.tsx:153-165 | a group's entries carry exactly that group's field names |
| ThemeContext.GroupNamesDistinct | src/contexts/ThemeContext.tsx:7-33 | no group repeats a field name |
| ThemeContext.VarsOfDomain | src/contexts/ThemeContext.tsx:153-165 | one group's forEach writes a custom property exactly for each field name of its entries, and for no other group |
| ThemeContext.VarsOfSameKeys | src/contexts/ThemeContext.tsx:153-165 | entry lists with the same field names write the same property names, whatever the values |
| ThemeContext.VarsOfLookup | src/contexts/ThemeContext.tsx:153-165 | with distinct names, each entry can be read back under its own property name with its own value |
| ThemeContext.ThemeVariablesSameKeys | src/contexts/ThemeContext.tsx:148-171 | every theme configuration writes the same set of property names |
| ThemeContext.ThemeVariableValue | src/contexts/ThemeContext.tsx:148-171 | field i of a group is written under its own name with the configuration's value |
| ThemeContext.AppliedStyleHasEveryField | src/contexts/ThemeContext.tsx:148-171 | after propagation, every color, font and effect field is in the root style with exactly its configured value |
| ThemeContext.ColorEntrySix | src/contexts/ThemeContext.tsx:7-33 | the seventh color entry is `textSecondary`, under its camel-case name |
| ThemeContext.VerbatimFieldName | src/contexts/ThemeContext.tsx:153-155 | the secondary text color lands under `--color-textSecondary` |
| ThemeContext.ThemeVariablesDomain | src/contexts/ThemeContext.tsx:148-171 | a property name of a group is written exactly when it names a field of that group |
| ThemeContext.KebabNotColorName | src/contexts/ThemeContext.tsx:153-155 | `text-secondary` is no color field name, and its property name would be `--color-text-secondary` |
| ThemeContext.KebabNameNeverWritten | src/contexts/ThemeContext.tsx:153-155 | no configuration ever writes `--color-text-secondary` |
| ThemeContext.VarsOfStep | src/contexts/ThemeContext.tsx:153-165 | writing one more entry over a style is one more map update |
| ThemeContext.ApplyIdempotent | src/contexts/ThemeContext.tsx:148-171 | running the propagation twice with the same configuration leaves the same style as running it once |
| ThemeContext.ApplyOverwrites | src/contexts/ThemeContext.tsx:148-171 | switching themes overwrites every property the previous theme wrote, so nothing of the old theme survives |
| ThemeContext.RestoredTheme | src/contexts/ThemeContext.tsx:140-145 | restore adopts a stored value only if it is a registry key; any registry key that is stored is adopted |
| ThemeContext.PersistThenRestore | src/contexts/ThemeContext.tsx:174-177 | a theme persisted by `setTheme` is the theme restored at the next start |
| ThemeContext.RestoreFallsBack | src/contexts/ThemeContext.tsx:137-145 | with nothing stored, or a stored value that is no key, the start theme stays vintage |
| ThemeContext.ThemeProvider.constructor | src/contexts/ThemeContext.tsx:137 | the provider starts on vintage, with the browser state as found |
| ThemeContext.ThemeProvider.ThemeConfigOf | src/contexts/ThemeContext.tsx:185-190 | the exposed `themeConfig` is the current theme's registry entry, whose name is the current key |
| ThemeContext.ThemeProvider.Restore | src/contexts/ThemeContext.tsx:140-145 | the mount-time restore sets the current theme to the restored theme |
| ThemeContext.ThemeProvider.SetTheme | src/contexts/ThemeContext.tsx:174-177 | the current theme becomes `t`, and storage holds `t`'s key under "theme" with every other key unchanged |
| ThemeContext.ThemeProvider.SetProperties | src/contexts/ThemeContext.tsx:153-165 | the loop leaves the old style overridden by exactly that group's properties |
| ThemeContext.ThemeProvider.ApplyTheme | src/contexts/ThemeContext.tsx:148-171 | the root style is the old style overridden by the theme's variables; `data-theme` is the key; the class name is `theme-<key>` |
| ThemeContext.ThemeProvider.Mount | src/contexts/ThemeContext.tsx:137-171 | after mount, even when restore changes the theme after the first propagation, the root reflects exactly the restored theme |
| ThemeSwitcher.ThemeDescription | front/src/components/ThemeSwitcher.tsx:15-26 | a description is non-empty exactly for the three registry keys |
| ThemeSwitcher.DescriptionsDistinct | front/src/components/ThemeSwitcher.tsx:15-26 | each theme has its own non-empty description |
| ThemeSwitcher.IconsTotal | front/src/components/ThemeSwitcher.tsx:28-35 | the icon lookup for the current theme never misses, the icons are distinct, and the map has only theme keys |
| ThemeSwitcher.Highlights | front/src/components/ThemeSwitcher.tsx:111-144 | an option is highlighted exactly when its value is the current theme |
| ThemeSwitcher.ExactlyOneHighlighted | front/src/components/ThemeSwitcher.tsx:111-144 | exactly one option is highlighted: the current theme's |
| ThemeSwitcher.ThemeSwitcher.constructor | front/src/components/ThemeSwitcher.tsx:12 | the menu starts closed |
| ThemeSwitcher.ThemeSwitcher.ToggleOpen | front/src/components/ThemeSwitcher.tsx:46 | the button flips the menu |
| ThemeSwitcher.ThemeSwitcher.HandleThemeChange | front/src/components/ThemeSwitcher.tsx:37-40 | picking a theme sets and persists it through the provider, and closes the menu |
| Auth.Utf16Length | src/pages/Auth.tsx:73 | a JavaScript length is between one and two units per character, and zero only for the empty string |
| Auth.IndexOf | src/pages/Auth.tsx:66 | the first occurrence of a character, or the length when there is none |
| Auth.MatchesEmailPattern | src/pages/Auth.tsx:66 | the language of `/^[^\s@]+@[^\s@]+\.[^\s@]+$/`: three non-empty plain runs split by an '@' and a later '.'; no ensures of its own: see `EmailValidMatchesPattern` |
| Auth.EmailValid | src/pages/Auth.tsx:66 | the `.test` check, by the first '@'; no ensures of its own: `EmailValidMatchesPattern` proves it accepts exactly the pattern's language, `EmailValidShape` what an accepted address looks like |
| Auth.EmailValidShape | src/pages/Auth.tsx:66 | an accepted address has no white space and exactly one '@' |
| Auth.EmailValidImpliesPattern | src/pages/Auth.tsx:66 | every address the check accepts splits into the regular expression's three plain runs |
| Auth.SplitImpliesEmailValid | src/pages/Auth.tsx:66 | given split points of a match, the check accepts |
| Auth.PatternImpliesEmailValid | src/pages/Auth.tsx:66 | every string of the regular expression's language is accepted |
| Auth.EmailValidMatchesPattern | src/pages/Auth.tsx:66 | the check accepts exactly the language of `/^[^\s@]+@[^\s@]+\.[^\s@]+$/` |
| Auth.FormData.Set | src/pages/Auth.tsx:50 | the spread update sets one field and keeps the other three |
| Auth.FieldError | src/pages/Auth.tsx:63-90 | the message each validation block records for one field, in the source's order of checks; no ensures of its own: see `FormErrors`, `AcceptedIff`, `PasswordErrors`, `LoginIgnoresRegistrationFields` |
| Auth.FormErrors | src/pages/Auth.tsx:60-94 | the error map has an entry exactly for each failing field, holding that field's message |
| Auth.AgreementDeterminesErrors | src/pages/Auth.tsx:60-94 | a map that agrees with the per-field verdicts on all four fields is the error map |
| Auth.AcceptedIff | src/pages/Auth.tsx:60-94 | the form is accepted exactly when the email matches the pattern, the password has at least 6 units, and, when registering, the name has at least 2 and the confirmation equals the password |
| Auth.PasswordErrors | src/pages/Auth.tsx:70-75 | a password error is present exactly when it is shorter than 6; empty gives "required", otherwise "too short" |
| Auth.LoginIgnoresRegistrationFields | src/pages/Auth.tsx:77-90 | when logging in, name and confirmation never produce errors |
| Auth.ActualType | src/pages/Auth.tsx:150-152 | the rendered type is the declared one, or "text" in place of "password" |
| Auth.RenderedTypes | src/pages/Auth.tsx:150-152 | only a password field whose own toggle is on changes its type; a password field is masked exactly when its toggle is off |
| Auth.AuthPage.constructor | src/pages/Auth.tsx:34-44 | the page starts in login mode, with an empty form and no errors |
| Auth.AuthPage.HandleInputChange | src/pages/Auth.tsx:49-55 | the field is updated; its error is blanked only if one is showing |
| Auth.AuthPage.ValidateEmail | src/pages/Auth.tsx:63-68 | the email block records exactly the email verdict and nothing else |
| Auth.AuthPage.ValidatePassword | src/pages/Auth.tsx:70-75 | the password block adds exactly the password verdict and keeps every other entry |
| Auth.AuthPage.ValidateRegistration | src/pages/Auth.tsx:77-90 | the registration block adds exactly the name and confirmation verdicts and keeps the rest |
| Auth.AuthPage.ValidateForm | src/pages/Auth.tsx:60-94 | the shown errors become exactly the error map, and the result says whether it is empty |
| Auth.AuthPage.HandleSubmit | src/pages/Auth.tsx:99-106 | submit validates, and loading starts exactly when there are no errors |
| Auth.AuthPage.SubmitSettled | src/pages/Auth.tsx:120-122 | loading ends once the simulated request settles |
| Auth.AuthPage.ToggleMode | src/pages/Auth.tsx:128-137 | the mode flips, and the errors and the form are reset |
| Auth.AuthPage.ToggleVisibility | src/pages/Auth.tsx:175-182 | an eye button flips its own field's visibility and leaves the other |
| TaskDetails.IdsOf | front/src/pages/TaskDetails.tsx:116-124 | the id set contains exactly the ids of the listed tasks |
| TaskDetails.IdsOfSize | front/src/pages/TaskDetails.tsx:169 | with distinct ids, there are as many ids as tasks |
| TaskDetails.MockTasksFacts | front/src/pages/TaskDetails.tsx:43-99 | the loaded tasks are five, with distinct ids, 365 points in all, and known difficulties |
| TaskDetails.Toggled | front/src/pages/TaskDetails.tsx:116-124 | toggling flips membership of that id and of no other |
| TaskDetails.ToggleTwice | front/src/pages/TaskDetails.tsx:116-124 | toggling the same task twice restores the completed set |
| TaskDetails.ToggleStaysListed | front/src/pages/TaskDetails.tsx:116-124 | toggling a listed task keeps the completed set within the listed ids |
| TaskDetails.TotalPointsBounds | front/src/pages/TaskDetails.tsx:170-172 | with non-negative points, the total lies between 0 and the sum of all points |
| TaskDetails.TotalPointsExtremes | front/src/pages/TaskDetails.tsx:170-172 | nothing completed earns 0; every listed task completed earns the full sum |
| TaskDetails.CompletingAddsPoints | front/src/pages/TaskDetails.tsx:116-124 | completing an incomplete task adds exactly its points |
| TaskDetails.PointsIgnoreOtherIds | front/src/pages/TaskDetails.tsx:170-172 | an id no listed task carries does not change the total |
| TaskDetails.TotalPoints | front/src/pages/TaskDetails.tsx:170-172 | the reduce over the tasks adding each completed task's points; no ensures of its own: see `TotalPointsBounds`, `TotalPointsExtremes`, `CompletingAddsPoints`, `PointsIgnoreOtherIds`, `BannerTotal` |
| TaskDetails.CompletionRate | front/src/pages/TaskDetails.tsx:169 | the rate is never negative and is 0 for an empty list |
| TaskDetails.SubsetSize | front/src/pages/TaskDetails.tsx:169 | a subset is no larger than its superset, and as large only when equal |
| TaskDetails.SameSizeSubsetIsAll | front/src/pages/TaskDetails.tsx:258 | within distinct listed ids, equal counts means every listed task is complete |
| TaskDetails.PercentBounds | front/src/pages/TaskDetails.tsx:169 | k of n in percent is at most 100, and exactly 100 only when k is n |
| TaskDetails.AllCompleteBanner | front/src/pages/TaskDetails.tsx:258 | the banner condition; no ensures of its own: `BannerIffAllComplete` proves it holds exactly when the list is non-empty and every task is complete |
| TaskDetails.BannerIffAllComplete | front/src/pages/TaskDetails.tsx:258 | the banner shows exactly when the list is non-empty and every task is complete; the rate stays within 100 and reaches it exactly then |
| TaskDetails.BannerTotal | front/src/pages/TaskDetails.tsx:170-172 | once the banner shows, the total is the sum of all points |
| TaskDetails.PixelStatusOf | front/src/pages/TaskDetails.tsx:281-287 | the level rises by one every three tasks; experience is twice the coins, which are 5 per task; the maxima are 100 |
| TaskDetails.PixelStatusMonotone | front/src/pages/TaskDetails.tsx:281-287 | more completed tasks never lower the level; with the five loaded tasks, experience stays within its maximum |
| TaskDetails.DifficultyText | front/src/pages/TaskDetails.tsx:157-164 | the "unknown" label appears exactly for an unknown difficulty |
| TaskDetails.DifficultyColor | front/src/pages/TaskDetails.tsx:145-152 | the grey fallback colour appears exactly for an unknown difficulty |
| TaskDetails.DifficultyLabelsAgree | front/src/pages/TaskDetails.tsx:145-164 | two difficulties share a label exactly when they share a colour; a known level's label is its own |
| TaskDetails.TaskDetailsPage.constructor | front/src/pages/TaskDetails.tsx:37-40 | the page starts with no tasks, nothing complete and no dialog |
| TaskDetails.TaskDetailsPage.LoadTasks | front/src/pages/TaskDetails.tsx:104-111 | the load timer installs the five tasks and keeps the completed ids within the listed ones |
| TaskDetails.TaskDetailsPage.ToggleTaskCompletion | front/src/pages/TaskDetails.tsx:116-124 | the completed set is toggled at the task's id and stays within the listed ids |
| TaskDetails.TaskDetailsPage.OpenShareModal | front/src/pages/TaskDetails.tsx:129-132 | the dialog opens on the chosen task |
| TaskDetails.TaskDetailsPage.ShowShareModal | front/src/pages/TaskDetails.tsx:268 | the banner's share button opens the dialog without choosing a task |
| TaskDetails.TaskDetailsPage.CloseShareModal | front/src/pages/TaskDetails.tsx:137-140 | the dialog closes and the task is forgotten |
| TaskGeneration.DefaultsAgainstOptions | src/pages/TaskGeneration.tsx:32-33 | the default duration "2" is a vintage option but not an agent option; "medium" is both; the empty theme is selectable |
| TaskGeneration.ThemeIdsDistinct | src/pages/TaskGeneration.tsx:38-67 | the exploration theme ids are distinct, non-empty and no mission type |
| TaskGeneration.CanGenerate | src/pages/TaskGeneration.tsx:80-83 | the guard of `handleGenerateTask`; no ensures of its own: see `DisabledIffGuardFailsOrBusy` and `TaskGenerationPage.HandleGenerateTask` |
| TaskGeneration.AgentButtonDisabled | src/pages/TaskGeneration.tsx:213 | the agent look's `disabled`; no ensures of its own: see `DisabledIffGuardFailsOrBusy` |
| TaskGeneration.PixelButtonDisabled | src/pages/TaskGeneration.tsx:301 | the pixel look's `disabled`; no ensures of its own: see `DisabledIffGuardFailsOrBusy` |
| TaskGeneration.VintageButtonDisabled | src/pages/TaskGeneration.tsx:551 | the vintage look's `disabled`; no ensures of its own: see `DisabledIffGuardFailsOrBusy` |
| TaskGeneration.DisabledIffGuardFailsOrBusy | src/pages/TaskGeneration.tsx:213 | every look disables the button exactly while generating or when the guard would refuse, so an enabled button always passes the guard |
| TaskGeneration.TaskGenerationPage.constructor | src/pages/TaskGeneration.tsx:30-35 | the page starts empty, with the defaults, and cannot generate; the empty theme is one a control offers (`Valid`) |
| TaskGeneration.TaskGenerationPage.SetLocation | src/pages/TaskGeneration.tsx:140 | the location input sets the location and keeps the selected theme one a control offers |
| TaskGeneration.TaskGenerationPage.SelectExplorerTheme | src/pages/TaskGeneration.tsx:288 | picking a theme card stores a selectable id; generation is then possible exactly when a location is set |
| TaskGeneration.TaskGenerationPage.SelectMissionType | src/pages/TaskGeneration.tsx:152-161 | the select stores one of its options; the prompt entry blocks generation |
| TaskGeneration.TaskGenerationPage.SetDuration | src/pages/TaskGeneration.tsx:173 | the duration control sets the duration and keeps `Valid` |
| TaskGeneration.TaskGenerationPage.SetDifficulty | src/pages/TaskGeneration.tsx:188 | the difficulty control sets the difficulty and keeps `Valid` |
| TaskGeneration.TaskGenerationPage.HandleGenerateTask | src/pages/TaskGeneration.tsx:79-93 | a request is issued, and generation starts, exactly when location and theme are both filled; the request carries the form as it stood; `Valid` is kept |
| TaskGeneration.TaskGenerationPage.GenerationFinished | src/pages/TaskGeneration.tsx:88-92 | the timer ends generation and keeps `Valid` |
| TaskGeneration.TaskGenerationPage.ToggleAdvanced | src/pages/TaskGeneration.tsx:98-100 | the advanced panel flips and keeps `Valid` |
| AgentTerminal.InitialInv | front/src/components/AgentTerminal.tsx:230-232 | the sequence starts in a legal state, with every step and every millisecond still ahead |
| AgentTerminal.Step | front/src/components/AgentTerminal.tsx:234-255 | one timer firing of the effect; no ensures of its own: see `StepProgress`, `RunProgress`, `LoadingSequence.Tick` |
| AgentTerminal.StepDelay | front/src/components/AgentTerminal.tsx:239-249 | a timer is scheduled (50 or 1000 ms) exactly while the sequence is not done |
| AgentTerminal.Run | front/src/components/AgentTerminal.tsx:234-255 | n firings in a row; no ensures of its own: see `RunProgress`, `FinishesAfterAllSteps` |
| AgentTerminal.DoneIffNothingRemains | front/src/components/AgentTerminal.tsx:234-255 | work remains exactly while some message is untyped |
| AgentTerminal.StepProgress | front/src/components/AgentTerminal.tsx:234-255 | each timer firing keeps the screen a prefix of the current message, uses one step and its own delay; after completion nothing changes |
| AgentTerminal.RunProgress | front/src/components/AgentTerminal.tsx:234-255 | n firings, no more than remain, use up exactly n steps and keep the invariant |
| AgentTerminal.FinishesAfterAllSteps | front/src/components/AgentTerminal.tsx:234-255 | the sequence completes after exactly one step per character plus one per message, and not earlier |
| AgentTerminal.DefaultSequenceLength | front/src/components/AgentTerminal.tsx:221-226 | the default messages take 37 steps and 5650 ms |
| AgentTerminal.RoundRatio | front/src/components/AgentTerminal.tsx:268 | `Math.round` of p/q: the nearest integer, with halves rounded up |
| AgentTerminal.ProgressAsWritten | front/src/components/AgentTerminal.tsx:268 | the line counts from `currentIndex + 1` over the message count; the percent exists exactly when there are messages |
| AgentTerminal.ProgressOverrunsWhenDone | front/src/components/AgentTerminal.tsx:268 | once the default sequence completes, the line reads [5/4] and 125% |
| AgentTerminal.ProgressClamped | front/src/components/AgentTerminal.tsx:268 | the corrected line never passes the total or 100%, and reads 100% from the last message on |
| AgentTerminal.PercentOfShown | front/src/components/AgentTerminal.tsx:268 | the rounded percent of k of n is at most 100 and exactly 100 at k = n |
| AgentTerminal.ProgressAgreesWhileRunning | front/src/components/AgentTerminal.tsx:268 | before completion, the corrected line equals the line as written |
| AgentTerminal.LoadingSequence.ProgressLine | front/src/components/AgentTerminal.tsx:268 | the component's progress line, corrected: never past the total or 100%, and `[n/n]` with 100% once done |
| AgentTerminal.LoadingSequence.constructor | front/src/components/AgentTerminal.tsx:230-232 | the component starts at the first character of the first message |
| AgentTerminal.LoadingSequence.Tick | front/src/components/AgentTerminal.tsx:234-255 | completion is reported exactly when done; otherwise one step is taken, keeping the invariant and using one remaining step |
| AgentTerminal.TerminalInput.constructor | front/src/components/AgentTerminal.tsx:104-105 | the input holds the initial value and shows the cursor |
| AgentTerminal.TerminalInput.HandleChange | front/src/components/AgentTerminal.tsx:115-119 | the text is replaced, and passed to `onChange` only when there is one |
| AgentTerminal.TerminalInput.HandleKeyPress | front/src/components/AgentTerminal.tsx:121-125 | only Enter submits the current text, and only when there is an `onSubmit` |
| AgentTerminal.TerminalInput.Blink | front/src/components/AgentTerminal.tsx:108-113 | the interval flips the cursor |
| AgentTerminal.VariantStyles | front/src/components/AgentTerminal.tsx:163-172 | red exactly for "danger", yellow exactly for "warning", green exactly for anything else |
| QuestService.ParseQuestTheme | urban-explorer/main.py:32-38 | an absent theme is the default; a present one is accepted exactly when it is one of the five literals |
| QuestService.ThemeLabelRoundTrip | urban-explorer/main.py:32 | every literal is accepted as its own theme, and no two themes share a literal |
| QuestService.ThemeGuideline | urban-explorer/main.py:102-104 | the guideline is empty exactly for an empty theme or the default |
| QuestService.GuidelineForTheme | urban-explorer/main.py:102-104 | for a valid theme, the guideline is empty only for the default; otherwise it starts with "CRITICAL:" and quotes the theme literal |
| QuestService.LeadingCount | urban-explorer/main.py:117 | the count of leading set characters is within the length |
| QuestService.TrailingCount | urban-explorer/main.py:117 | the count of trailing set characters is within the length |
| QuestService.LStripSet | urban-explorer/main.py:117 | `lstrip(chars)` over a character set; no ensures of its own: see `LStripSpec`, `LStripPrefix`, `LStripKeeps`, `LStripRemovesSetNotPrefix` |
| QuestService.RStripSet | urban-explorer/main.py:117 | `rstrip(chars)` over a character set; no ensures of its own: see `RStripSpec`, `RStripSuffix`, `RStripKeeps` |
| QuestService.Strip | urban-explorer/main.py:117 | `strip()` with Python's white-space set; no ensures of its own: see `StripPadded`, `StripUnchanged` |
| QuestService.CleanReply | urban-explorer/main.py:117 | the whole cleaning chain; no ensures of its own: see `CleanIsSlice`, `CleanTrimmed`, `CleanBareBody`, `CleanFencedBody` |
| QuestService.LeadingCountSpec | urban-explorer/main.py:117 | the counted prefix is all in the set, and the next character is not |
| QuestService.TrailingCountSpec | urban-explorer/main.py:117 | the counted suffix is all in the set, and the character before it is not |
| QuestService.LStripSpec | urban-explorer/main.py:117 | `lstrip(chars)` removes a prefix made only of the set, and what remains does not start with a set character |
| QuestService.RStripSpec | urban-explorer/main.py:117 | `rstrip(chars)` removes a suffix made only of the set, and what remains does not end with a set character |
| QuestService.CleanTrimmed | urban-explorer/main.py:117 | the cleaned reply neither starts nor ends with white space |
| QuestService.SliceTrans | urban-explorer/main.py:117 | a slice of a slice is a slice |
| QuestService.StripSetsIsSlice | urban-explorer/main.py:117 | an lstrip followed by an rstrip leaves a contiguous slice of the input |
| QuestService.CleanIsSlice | urban-explorer/main.py:117 | whatever the reply, the cleaned text is a contiguous piece of it |
| QuestService.LStripRemovesSetNotPrefix | urban-explorer/main.py:117 | `lstrip("```json")` strips characters, not the prefix: "json{}" and "```jsonson{}" both become "{}" |
| QuestService.LStripPrefix | urban-explorer/main.py:117 | a prefix of set characters, followed by a non-set character, is exactly what lstrip removes |
| QuestService.RStripSuffix | urban-explorer/main.py:117 | a suffix of set characters, preceded by a non-set character, is exactly what rstrip removes |
| QuestService.StripPadded | urban-explorer/main.py:117 | a braced body padded with white space strips back to the body |
| QuestService.CleanShapedReply | urban-explorer/main.py:117 | fence characters, padding, a braced body, padding and closing backticks clean to the body |
| QuestService.CleanBareBody | urban-explorer/main.py:117 | a reply that is just a braced body comes through cleaning unchanged |
| QuestService.CleanFencedBody | urban-explorer/main.py:117 | a braced body in a "```json" fence on lines of its own cleans to the body alone |

## Left out

- **Timers and effects.** React scheduling, re-renders and timer cancellation on unmount are not modelled. Each timer or effect firing is a method call, made in the order React would make it.
- **The DOM and storage.** `document.documentElement` and `localStorage` are maps owned by `ThemeProvider`. A storage quota failure is not modelled; the source does not handle it either.
- **Rendering.** JSX layout, animation (framer-motion), icons and CSS classes other than those named above are not modelled.
- **The restore guard's prototype keys** (src/contexts/ThemeContext.tsx:142): `themeConfigs[savedTheme]` is also truthy for inherited keys such as "constructor". The model accepts only the three registry keys.
- **`useTheme` outside a provider.** The throw at src/contexts/ThemeContext.tsx:200-206 is not modelled: every component here is given its provider.
- **The failure path of `handleSubmit`** (src/pages/Auth.tsx:117-119): the simulated request cannot fail, so the catch branch is not modelled. Neither are `console.log`, the redirect or `alert`.
- **Non-BMP characters in the typewriter.** Messages are sequences of characters, one step per character. JavaScript would take two steps for a character outside the Basic Multilingual Plane; the default messages have none.
- **Floating point.** The completion rate is an exact rational (`real`). `Math.round` uses integer arithmetic on the exact ratio (`RoundRatio`), not on the floating-point product `((i + 1) / n) * 100`.
- **No messages.** With no messages, `currentIndex` stays 0 and the source computes `Math.round((1 / 0) * 100)`, so the line reads `[1/0] 进度: Infinity%`. `ProgressAsWritten` represents that percent as absent (`None`).
- AgentTerminal.ProgressClamped: the "100% only at the last message" direction is stated for fewer than 200 messages. From 200 messages on, `Math.round` reaches 100 one message early, which the source does too.
- QuestService.LStripSet: no ensures of its own. Its properties are stated and proved by `LStripSpec`, `LStripPrefix` and `LStripKeeps`.
- QuestService.RStripSet: no ensures of its own. Its properties are stated and proved by `RStripSpec`, `RStripSuffix` and `RStripKeeps`.
- TaskDetails.TaskDetailsPage.LoadTasks: requires the task list to be still empty, as it is at the single mount-time load.
- **The Python endpoint's other code.** These are not modelled: the language-model call, `prompt.format`, `json.loads`, pydantic response validation, HTTP errors, FastAPI routing and CORS.
- **Other files.** Home.tsx, App.tsx, UserProfile.tsx and PixelComponents.tsx are not part of this model.

## Findings

| source | as written | input that shows it | evidently intended | confidence | as-written member | corrected member |
|---|---|---|---|---|---|---|
| front/src/components/AgentTerminal.tsx:268 | the progress line shows `currentIndex + 1` over the message count, also after the last message | default messages after all 37 steps: `[5/4] 进度: 125%` | hold the count at the total once done: `[4/4]`, 100% | not executed | AgentTerminal.ProgressOverrunsWhenDone | AgentTerminal.ProgressClamped |
