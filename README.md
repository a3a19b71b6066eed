# doyoucompute-templates, modelled in Dafny

doyoucompute-templates builds Markdown documents (a bug report issue
template, a pull request template, a README and a CONTRIBUTING guide) on
top of the `doyoucompute` document library. Each template:

- seeds a properties record with default sections;
- applies the caller's `With*` options in order, where an option may return
  a post-effect that runs right after it;
- checks the required fields;
- hands an applier to a document builder, which attaches the sections in a
  fixed order.

The project models that layer:

- `helpers.dfy` (module `Helpers`): the generic machinery of
  `pkg/helpers/helpers.go`. `ApplyOptions`, `SectionFactory` and
  `DocumentBuilder` are methods with loops. Each is proved equal to a
  recursive specification function (`Applied`, `Factory`, `Built`), and the
  promised properties are lemmas about those functions: fail-fast, order,
  composition, post-effects run in place, and applier errors ignored.
- `bugreport.dfy`, `pullrequest.dfy`, `readme.dfy`, `contributing.dfy`: one
  module per template. Each has a properties datatype and an option datatype
  with one constructor per `With*` function. `Func` maps each constructor to
  the closure the Go function returns. `New` is a method that follows the Go
  `New` step by step, and it is specified by the function `Composed`. An
  independent reference, `Configured`, says that every field holds the value
  of the last option that writes it. `AppliedIsConfigured` proves that the
  generic loop, run over the template's closures, computes exactly
  `Configured`. The outcome lemmas then state what `New` returns and when it
  fails.
- `gostrings.dfy` (module `GoStrings`): Go's `strings.Split` on a
  one-character separator, with its inverse `Join`. The contributing
  template derives the project name from these.
- `doyoucompute.dfy` (module `DoYouCompute`): a small value model of the
  external library's `Section`, `Paragraph`, `Document` and `Frontmatter`.
  - A section is a name and a sequence of blocks. A block is static text
    (`Prose`), a value supplied by a template parameter (`Mention`), or a
    nested section (`Sub`).
  - `Mentions` collects the parameter values a section shows.
  - The external library's own behaviour is not part of this model. Only the
    calls the templates make are modelled: `NewSection`, `Write`,
    `AddSection`, `AddFrontmatter`, `AddIntro` and `NewDocument`.
- `wrappers.dfy`: `Option` and `Result`.

Go passes `&props` and `&document` to closures that mutate them. Dafny
closures are pure, so an option here is a function from the current
properties to the updated ones (or an error). The loops reassign a local
value where Go writes through `&props`.

Assumptions:

- `bugreport.go` and `readme.go` call `doyoucompute.ApplyOptions`,
  `doyoucompute.SectionFactory` and `doyoucompute.DocumentFactory`. The
  source of these is not part of this model. They are assumed to behave
  exactly like their `pkg/helpers/helpers.go` counterparts, and the model
  uses those.
- `doyoucompute.NewDocument` is assumed to reject exactly the empty name.
  In that case `DocumentBuilder` returns the empty document and no error.

Code and tests disagree in one place. `pkg/contributing/contributing_test.go:234-264`
expects `New` to reject four inputs:

- an empty project URL;
- an empty issue tracker URL;
- a URL whose project name is empty (`https://github.com/`);
- an empty name.

`pkg/contributing/contributing.go:390-431` performs none of these checks.
The model follows the code, and `Contributing.NoValidation` proves that all
four inputs come back without an error.

## Model

| member | source | states |
|---|---|---|
| Helpers.ApplyOptions | pkg/helpers/helpers.go:39-54 | returns what `Applied` computes: the options in list order, each followed by its post-effect, stopping at the first error; an empty option list leaves the properties unchanged |
| Helpers.AppliedAt | pkg/helpers/helpers.go:40-50 | option k sees the properties left by options 0..k-1; an error of option k is the result; without a post-effect the loop continues with option k's output; a post-effect runs on that output before option k+1, and its error is the result |
| Helpers.AppliedFailFast | pkg/helpers/helpers.go:41-49 | once a prefix of the options fails with e, adding later options still fails with e, so nothing after the failure changes the outcome |
| Helpers.AppliedAppend | pkg/helpers/helpers.go:40-53 | applying a + b equals applying a and then, on success, b to its result; a failure of a is the result |
| Helpers.SectionFactory | pkg/helpers/helpers.go:14-22 | returns the content functions applied left to right to a fresh section named `name`; no content functions give `NewSection(name)` |
| Helpers.FactoryOne | pkg/helpers/helpers.go:14-22 | one content function f gives f applied to a fresh section |
| Helpers.WrittenSnoc | pkg/helpers/helpers.go:17-19 | each content function receives the output of the ones before it |
| Helpers.DocumentBuilder | pkg/helpers/helpers.go:26-37 | never returns an error; a failed `NewDocument` yields the empty document; otherwise the appliers run in order on the new document |
| Helpers.AppliesIgnoresErrors | pkg/helpers/helpers.go:32-34 | appliers that build the same documents give the same result whatever errors they report |
| GoStrings.Split | pkg/contributing/contributing.go:391 | `strings.Split` never returns an empty list |
| GoStrings.SplitJoin | pkg/contributing/contributing.go:391 | joining the pieces with the separator restores the string, and no piece contains the separator |
| BugReport.FrontmatterFor | pkg/bugreport/bugreport.go:166-175 | the frontmatter has exactly the keys name, about, title, labels and assignees; name is the given name, about is "Report a bug", the rest are empty |
| BugReport.DefaultFrontMatter | pkg/bugreport/bugreport.go:253-261 | the default frontmatter has exactly the five issue-template keys: name "Bug Report", about "Report a bug", and empty title, labels and assignees |
| BugReport.DefaultExpectedBehavior | pkg/bugreport/bugreport.go:183-191 | called "Expected behavior", one static block, showing no parameter value |
| BugReport.DefaultActualBehavior | pkg/bugreport/bugreport.go:194-202 | called "Actual behavior", one static block, showing no parameter value |
| BugReport.DefaultEnvironmentDetails | pkg/bugreport/bugreport.go:205-213 | called "Environment details", one static block, showing no parameter value |
| BugReport.DefaultCodeSamples | pkg/bugreport/bugreport.go:216-225 | called "Code Samples", a comment and a code block, showing no parameter value |
| BugReport.DefaultErrorMessages | pkg/bugreport/bugreport.go:228-236 | called "Error Messages", one static block, showing no parameter value |
| BugReport.DefaultStepsToReproduce | pkg/bugreport/bugreport.go:239-250 | called "Steps to reproduce", one static list, showing no parameter value |
| BugReport.Defaults | pkg/bugreport/bugreport.go:273-282 | `New` starts from the name "Bug Report", the frontmatter for that name, and the six default sections in their fields |
| BugReport.FrontmatterFinalizer | pkg/bugreport/bugreport.go:166-177 | `WithName(n)`'s post-effect never fails, sets the frontmatter to the one for n and changes no other field |
| BugReport.Func | pkg/bugreport/bugreport.go:51-179 | no option closure ever fails, and exactly `WithName` returns a post-effect |
| BugReport.New | pkg/bugreport/bugreport.go:272-303 | follows the Go `New`: defaults, options, empty-name check, then the document builder, returning what `Composed` describes |
| BugReport.ConfiguredOne | pkg/bugreport/bugreport.go:51-179 | a single option writes exactly the fields it sets, and `WithName` also rewrites the frontmatter |
| BugReport.StepIsConfigured | pkg/bugreport/bugreport.go:51-179 | each option's closure, run together with its post-effect, has exactly its reference effect |
| BugReport.AppliedIsConfigured | pkg/bugreport/bugreport.go:284-287 | the options never fail, and applying them gives the last-writer-wins properties |
| BugReport.ComposedOutcome | pkg/bugreport/bugreport.go:272-303 | `New` errors if and only if the final name is empty, with "bug report name cannot be empty" and the empty document; otherwise the document has the final name and frontmatter and exactly six sections, expected, actual, environment, reproduction steps, code samples and errors, whatever the options |
| BugReport.BuiltReport | pkg/bugreport/bugreport.go:293-303 | the applier attaches the frontmatter and the six sections in the fixed order |
| BugReport.DefaultReport | pkg/bugreport/bugreport.go:253-282 | with no options: name "Bug Report", the default frontmatter for "Bug Report", and sections "Expected behavior", "Actual behavior", "Environment details", "Steps to reproduce", "Code Samples", "Error Messages" |
| BugReport.WithNameRewritesFrontmatter | pkg/bugreport/bugreport.go:162-179 | `WithName(n)` sets the name to n, and its post-effect replaces the frontmatter with the one for n |
| BugReport.FrontmatterOrder | pkg/bugreport/bugreport.go:51-179 | `WithFrontMatter(f)` followed by `WithName(n)` discards f; `WithName(n)` followed by `WithFrontMatter(f)` keeps f and the name n. The second half rests on the assumption that `doyoucompute.ApplyOptions` runs a post-effect right after its option, as pkg/helpers/helpers.go:46-50 does |
| BugReport.SectionOptionsReplaceOwnField | pkg/bugreport/bugreport.go:67-155 | each section option replaces its own section and leaves every other field unchanged |
| BugReport.LastNameWins | pkg/bugreport/bugreport.go:162-179 | a trailing `WithName(n)` decides both the name and the frontmatter, whatever came before |
| PullRequest.Defaults | pkg/pullrequest/pullrequest.go:135-140 | `New` starts from the name "Pull Request" and the three default sections, "Description", "Related issue" and "How I tested", in their fields |
| PullRequest.DefaultName | pkg/pullrequest/pullrequest.go:97-99 | the default name is "Pull Request" |
| PullRequest.DefaultDescription | pkg/pullrequest/pullrequest.go:102-107 | called "Description", one static block, showing no parameter value |
| PullRequest.DefaultRelatedIssue | pkg/pullrequest/pullrequest.go:110-115 | called "Related issue", one static block, showing no parameter value |
| PullRequest.DefaultTesting | pkg/pullrequest/pullrequest.go:118-123 | called "How I tested", one static block, showing no parameter value |
| PullRequest.Func | pkg/pullrequest/pullrequest.go:40-94 | no option closure ever fails or returns a post-effect |
| PullRequest.New | pkg/pullrequest/pullrequest.go:134-159 | follows the Go `New`: defaults, options, empty-name check, then the document builder, returning what `Composed` describes |
| PullRequest.ConfiguredOne | pkg/pullrequest/pullrequest.go:40-94 | a single option writes exactly the field it sets |
| PullRequest.OptionsOverwriteOneField | pkg/pullrequest/pullrequest.go:40-94 | each `With*` option overwrites exactly one field and nothing else |
| PullRequest.StepIsConfigured | pkg/pullrequest/pullrequest.go:40-94 | the options have no post-effects and never fail: each closure has exactly its reference effect |
| PullRequest.AppliedIsConfigured | pkg/pullrequest/pullrequest.go:142-145 | applying the options never fails and gives the last-writer-wins properties |
| PullRequest.BuiltPullRequest | pkg/pullrequest/pullrequest.go:152-158 | the applier attaches description, related issue and testing, in that order |
| PullRequest.ComposedOutcome | pkg/pullrequest/pullrequest.go:134-159 | `New` errors if and only if the final name is empty, with "pull request name cannot be empty" and the empty document; otherwise exactly three sections in fixed order, whatever the options |
| PullRequest.DefaultPullRequest | pkg/pullrequest/pullrequest.go:97-140 | with no options: name "Pull Request", no frontmatter, sections "Description", "Related issue", "How I tested" |
| PullRequest.LastNameWins | pkg/pullrequest/pullrequest.go:40-46 | whatever options come before, a trailing `WithName(n)` with non-empty n names the document n, with no error (an earlier non-empty name does not survive a later `WithName("")`, see `ComposedOutcome`) |
| Readme.DefaultContributing | pkg/readme/readme.go:83-94 | the default contributing section is called "Contributing" |
| Readme.DefaultLicense | pkg/readme/readme.go:97-108 | the default license section is called "License" |
| Readme.LicenseFor | pkg/readme/readme.go:64-80 | the section `WithLicense(name, path)` builds is called "License" and shows exactly the license name and the path |
| Readme.Validate | pkg/readme/readme.go:129-137 | the pre-option checks pass if and only if the name, the features section name and the quick start section name are all non-empty (the order in which `New` reports them is stated by `Readme.ComposedErrors`) |
| Readme.AddSections | pkg/readme/readme.go:163-165 | the loop appends the additional sections, in the given order, after the existing content |
| Readme.Seeded | pkg/readme/readme.go:139-146 | the options start from the caller's properties with only the contributing and license sections replaced by their defaults |
| Readme.Func | pkg/readme/readme.go:56-80 | neither option closure ever fails or returns a post-effect |
| Readme.New | pkg/readme/readme.go:127-173 | follows the Go `New`: the three checks, the reseeded properties, the options, the post-option name check, then the document builder, returning what `Composed` describes |
| Readme.ConfiguredOne | pkg/readme/readme.go:56-80 | a single option writes exactly the field it sets |
| Readme.OptionsChangeOneField | pkg/readme/readme.go:56-80 | `WithName(n)` changes only the name; `WithLicense(name, path)` replaces only the license section |
| Readme.StepIsConfigured | pkg/readme/readme.go:56-80 | each option's closure has exactly its reference effect |
| Readme.AppliedIsConfigured | pkg/readme/readme.go:148-151 | applying the options never fails and gives the last-writer-wins properties |
| Readme.LicenseNamed | pkg/readme/readme.go:64-80 | whatever the options, the license section is still called "License" |
| Readme.BuiltReadme | pkg/readme/readme.go:158-172 | the applier sets the intro, then attaches Features, QuickStart, the additional sections, Contributing and License |
| Readme.ComposedIsConfigured | pkg/readme/readme.go:127-173 | what `New` returns, with the option loop replaced by its reference semantics: a failed check's error, else the post-option name error, else the assembled document |
| Readme.ComposedErrors | pkg/readme/readme.go:129-156 | the errors come in the order name, features, quick start, then the name checked again after the options; `New` succeeds if and only if all four checks pass |
| Readme.ComposedDocument | pkg/readme/readme.go:158-172 | on success: the final name, the caller's intro, then Features, QuickStart, the additional sections in order, the default Contributing section and the License section last; 4 + \|additional\| sections, and their names in that order |
| Readme.CallerContributingAndLicenseIgnored | pkg/readme/readme.go:139-146 | the caller's contributing and license sections never influence the result, because both are reset to the defaults before the options run |
| Contributing.ProjectName | pkg/contributing/contributing.go:391-392 | the project name is a suffix of the URL that contains no '/' and is either the whole URL or preceded by '/' |
| Contributing.ProjectNameUnique | pkg/contributing/contributing.go:391-392 | those conditions determine the project name: it is the text after the last '/' |
| Contributing.ProjectNameCases | pkg/contributing/contributing.go:391-392 | a URL without '/' is its own project name; a URL ending in '/' has the empty project name |
| Contributing.ProjectNameOfRepositoryUrl | pkg/contributing/contributing.go:391-392 | "https://github.com/user/awesome-project" gives "awesome-project" |
| Contributing.GettingStartedContent | pkg/contributing/contributing.go:228-235 | the getting-started closure keeps the section's name and adds no parameter value |
| Contributing.DefaultGettingStarted | pkg/contributing/contributing.go:227-236 | called "Getting started", showing no parameter value |
| Contributing.ChoseATaskContent | pkg/contributing/contributing.go:240-256 | the task closure keeps the section's name and adds exactly the issue tracker URL |
| Contributing.DefaultChoseATask | pkg/contributing/contributing.go:239-257 | called "Find a task", showing exactly the issue tracker URL |
| Contributing.LicenseContent | pkg/contributing/contributing.go:261-267 | the license closure keeps the section's name and adds no parameter value |
| Contributing.DefaultLicense | pkg/contributing/contributing.go:260-268 | called "License", showing no parameter value |
| Contributing.WritingDocsContent | pkg/contributing/contributing.go:272-283 | the documentation closure keeps the section's name and adds no parameter value |
| Contributing.DefaultWritingDocs | pkg/contributing/contributing.go:271-284 | called "Writing documentation", showing no parameter value |
| Contributing.ReportingBugsContent | pkg/contributing/contributing.go:288-302 | the bug-reporting closure keeps the section's name and earlier blocks and appends exactly two subsections: "Checking for Existing Reports", which shows exactly the issue tracker URL, then "Reporting new bugs", which shows no parameter value |
| Contributing.DefaultReportingBugs | pkg/contributing/contributing.go:287-303 | called "Reporting bugs", showing exactly the issue tracker URL |
| Contributing.SetupContent | pkg/contributing/contributing.go:307-326 | the setup closure keeps the section's name and adds exactly the project URL and the project name |
| Contributing.DefaultOpenSourceGoSetupGuidelines | pkg/contributing/contributing.go:306-327 | called "Setting Up Your Development Environment", showing exactly the project URL and the project name |
| Contributing.ProseContent | pkg/contributing/contributing.go:331-346 | appending n static blocks keeps the name, adds exactly n blocks and no parameter value |
| Contributing.DefaultOpenSourceGoDevelopmentGuidelines | pkg/contributing/contributing.go:330-347 | called "Development Workflow", showing no parameter value |
| Contributing.DefaultOpenSourceSubmittingGuidelines | pkg/contributing/contributing.go:350-375 | called "Submitting your changes", showing no parameter value |
| Contributing.DefaultName | pkg/contributing/contributing.go:49-52 | the default document name is "Contributing" |
| Contributing.Defaults | pkg/contributing/contributing.go:394-406 | `New` starts from the name "Contributing" and the URLs it was given; the task and bug-reporting sections show exactly the tracker URL, the setup section exactly the project URL and its project name; the first and last sections are "Getting started" and "License" |
| Contributing.TrackerFinalizer | pkg/contributing/contributing.go:89-94 | `WithIssueTrackerUrl(u)`'s post-effect never fails, rebuilds the task and bug-reporting sections so that each shows exactly u, and changes no other field |
| Contributing.Func | pkg/contributing/contributing.go:59-224 | no option closure ever fails, and exactly `WithIssueTrackerUrl` returns a post-effect |
| Contributing.Guidelines | pkg/contributing/contributing.go:418-425 | "Contribution guidelines" holds "Code contributions" (setup, development, submissions), then bug reporting, then writing docs |
| Contributing.Attach | pkg/contributing/contributing.go:413-430 | the applier keeps the document's name, frontmatter, intro and earlier sections, and appends exactly three: getting started with the task section nested last, the guidelines, and the license |
| Contributing.New | pkg/contributing/contributing.go:390-431 | follows the Go `New`: project name, defaults, options, then the document builder with the nested layout, returning what `Composed` describes |
| Contributing.ConfiguredOne | pkg/contributing/contributing.go:59-224 | a single option writes exactly the fields it sets; `WithIssueTrackerUrl` also rewrites the task and bug-reporting sections |
| Contributing.StepIsConfigured | pkg/contributing/contributing.go:59-224 | each option's closure, run together with its post-effect, has exactly its reference effect |
| Contributing.AppliedIsConfigured | pkg/contributing/contributing.go:408-411 | applying the options never fails and gives the last-writer-wins properties |
| Contributing.TrackerUrlRebuildsSections | pkg/contributing/contributing.go:85-96 | `WithIssueTrackerUrl(u)` sets the URL, and its post-effect rebuilds the task and the bug-reporting sections from u; nothing else changes |
| Contributing.TrackerUrlOverridesEarlierSections | pkg/contributing/contributing.go:85-96 | a later `WithIssueTrackerUrl(u)` overwrites any earlier `WithChoseATask` or `WithReportingbugs` |
| Contributing.OptionsChangeOneField | pkg/contributing/contributing.go:59-224 | `WithName`, `WithProjectUrl` and each section override replace only their own field |
| Contributing.SetupNotRebuilt | pkg/contributing/contributing.go:391-400 | without `WithSetup`, the setup section stays the one built from the URL given to `New` and its project name, even after `WithProjectUrl` |
| Contributing.BuiltContributing | pkg/contributing/contributing.go:413-430 | an empty name gives the empty document; otherwise three top-level sections: getting started with the task section nested last, "Contribution guidelines" holding "Code contributions" (setup, development, submissions), then bug reporting, then writing docs, and the license |
| Contributing.ComposedOutcome | pkg/contributing/contributing.go:390-431 | `New` never returns an error and builds the document from the last-writer-wins properties |
| Contributing.LayoutMentions | pkg/contributing/contributing.go:413-430 | the nested layout shows exactly the union of what its eight parts show |
| Contributing.BuiltMentions | pkg/contributing/contributing.go:413-430 | a built document shows exactly what its eight parts show |
| Contributing.BuiltNames | pkg/contributing/contributing.go:413-430 | the top-level section names are getting started's name, "Contribution guidelines" and the license's name |
| Contributing.DefaultsNames | pkg/contributing/contributing.go:394-406 | the default name is "Contributing"; the default first and last sections are "Getting started" and "License" |
| Contributing.DefaultsMentions | pkg/contributing/contributing.go:394-406 | together the default sections show exactly the project URL, the project name derived from it and the issue tracker URL (which section shows which value is stated by `Contributing.Defaults`) |
| Contributing.DefaultContributing | pkg/contributing/contributing.go:394-430 | with no options: name "Contributing", sections "Getting started", "Contribution guidelines", "License", showing exactly the project URL, the project name and the issue tracker URL |
| Contributing.TrackerUpdateMentions | pkg/contributing/contributing.go:85-96 | after `WithIssueTrackerUrl(u)` the document shows u in place of the issue tracker URL given to `New` |
| Contributing.NoValidation | pkg/contributing/contributing.go:390-431 | no input is rejected: any URLs (empty, or with an empty project name) and any options give no error; `WithName("")` gives the empty document without an error |

## Left out

- The `doyoucompute` library is not part of this model: paragraph, list, comment, code-block and link internals, and the Markdown renderer. Static text, fixed links such as "./LICENSE" included, is one `Prose` block per write call. Only the values that come from template parameters are kept (`Mention`). Tests that look for text in the rendered output become statements about `Mentions`.
- The exact prose of the default sections is content, not logic: only section names, block counts, nesting and parameter values are modelled.
- Go mutates the properties through `&props` even before an option reports an error. Here a failing option leaves no updated value. No template observes the difference, because every `New` returns the empty document on an option error.
- Sections are values: Go's slice-backed sections can alias when one section is passed to several options, and the contributing applier mutates `props.gettingStarted` in place (pkg/contributing/contributing.go:415). Neither is modelled.
- Readme.AddSections: the loop over the additional sections runs inside the applier closure handed to the document builder. A closure value cannot call a method, so the loop is a recursive function here.
- `NewDocument` is assumed to reject exactly the empty name; the external library's actual rule is not part of this model.
- Readme.ComposedErrors: proved for the template's own options `WithName` and `WithLicense` only. `ReadmeProps` and its option type are exported (pkg/readme/readme.go:38-49,127), so a caller can pass its own closure; such a closure can fail, which adds an error case, and only the name is checked again after the options.
- Readme.ComposedDocument: proved for `WithName` and `WithLicense` only. A caller-written option could rewrite `Intro`, `Features` or `QuickStart` after the pre-option checks (pkg/readme/readme.go:129-137), so the document would not hold the caller's values or a non-empty features or quick-start name.
- Options are values of a closed datatype, so a `nil` option cannot be passed. In Go, `ApplyOptions` calls every element (pkg/helpers/helpers.go:41), so a `nil` option passed to any `New` panics.
- `internal/` (the CLI, this repository's own docs, the samples) is outside the templates: file reads, printing and panics.
