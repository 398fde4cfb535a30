# The Project Hub — a verified model of its deterministic core

The Project Hub is a Next.js application where makers describe themselves
and their projects, have a text-generation service rewrite that profile as a
portfolio, and download the portfolio as an image rendered by a headless
browser. Most of the application is UI and calls to a hosted backend. This
project models the parts that compute something, and proves what they do:

- **Portfolio rendering** (`PortfolioRender`, render.dfy). The render route
  first checks the request and fills in defaults. `generatePortfolioHTML` then
  builds the page: a theme with default colours, a total font lookup, one
  numbered card per project (at most three images each, with optional
  sections that are left out when empty), an optional skills section, and
  the avatar or an initial-letter placeholder. The markup is a string built
  by concatenation.
- **Portfolio generation** (`PortfolioGenerate`, generate.dfy).
  - `fetchWithBackoff` is a bounded recursion over a given sequence of
    network outcomes. It returns the calls made, the waits between them and
    the outcome.
  - The skill and project formatters build the prompt text.
  - The route's guards (API key, `userData`) and its candidate check decide
    the reply.
- **Intake editing** (`IntakeEditing`, intake.dfy).
  - The profile page's state is a class `IntakeForm`. Its fields are the
    tag lists, their input boxes and the project list.
  - Each handler is a method with a frame and a specification function:
    - tags: add and remove;
    - projects: add, remove and patch by id;
    - images: the 3-image cap and image removal;
    - project skills;
    - comma-list parsing;
    - the `saveAll` loop that rewrites image URLs after upload.
- **Translations** (`I18n`, i18n.tsx model in i18n.dfy). The initial locale,
  the document direction, and `t`, the dotted-key lookup with a fallback. `t`
  is modelled as a loop, proved equal to a recursive walk of the JSON tree.
- **Sign-up** (`Signup`, signup.dfy). The username is trimmed, its length
  bounded (in UTF-16 code units, as JavaScript counts) and its characters
  checked. The submit handler is modelled as the sequence of calls it makes.
- **Locations** (`Locations`, locations.dfy). The `GET` route builds either
  a city list or a country list.
- **Registration form** (`Registration`, registration.dfy).
  - The country list is built in a loop from the country library.
  - There is a static fallback.
  - The city-options effect.
  - The country input clears the chosen city.
- Shared pieces:
  - `Optional`: the option type and JavaScript's `||` on strings.
  - `Text`: `trim`, `split`, `join`, `String(n)`, `padStart`, ASCII
    `toUpperCase`, `new Set` de-duplication and `filter`.
  - `Collation`: the sort the application applies with `localeCompare`,
    an in-place insertion sort on an array, with the lemma that a sorted
    permutation is unique.

The retry loop's exhaustion message says "after 3 attempts", but the code
makes up to four calls: the first call and three retries. The model makes
four calls and keeps the message (`PortfolioGenerate.AllRaise`,
`PortfolioGenerate.ExhaustedMessageText`).

The registration form computes `countryOptions` and `cityOptions`. Its
datalists, though, list the static country and city modules. The model
covers the state updates, as the source performs them.

## Model

| member | source | states |
|---|---|---|
| Optional.OrElse | src/app/api/portfolio/render/route.ts:111-114 | `value \|\| fallback` on a string: the value when present and non-empty, the fallback otherwise |
| Text.Trim | src/app/profile/mock-id-123/page.tsx:42 | `trim`: the leading and then the trailing whitespace removed; `TrimShape`, `TrimFixedPoint` and `TrimIdempotent` state its properties |
| Text.TrimStart | src/app/profile/mock-id-123/page.tsx:42 | the result is a suffix of the input that does not start with whitespace, and everything dropped is whitespace |
| Text.TrimEnd | src/app/profile/mock-id-123/page.tsx:42 | the result is a prefix of the input that does not end with whitespace, and everything dropped is whitespace |
| Text.TrimShape | src/app/profile/mock-id-123/page.tsx:42 | `trim` never lengthens, and its result neither starts nor ends with whitespace |
| Text.TrimFixedPoint | src/app/profile/mock-id-123/page.tsx:42 | `trim` leaves a string unchanged exactly when it is empty or has no whitespace at either end |
| Text.TrimSpaced | src/app/profile/mock-id-123/page.tsx:342 | trimming `" " + x` gives back a non-empty, already-trimmed `x` |
| Text.TrimIdempotent | src/app/profile/mock-id-123/page.tsx:42 | trimming twice is trimming once |
| Text.Split | src/lib/i18n.tsx:60 | `split` on one character gives at least one piece, and no piece contains the separator |
| Text.Join | src/app/api/portfolio/generate/route.ts:94 | `join(sep)`: the elements with the separator between neighbours; `JoinAppend`, `JoinSplit` and `SplitJoin` state its properties |
| Text.JoinAppend | src/app/api/portfolio/generate/route.ts:94 | joining one more element adds the separator and the element at the end; one element joins to itself |
| Text.JoinSplit | src/app/profile/mock-id-123/page.tsx:342 | joining the pieces of a split with the same separator gives the string back |
| Text.SplitNoSeparator | src/app/profile/mock-id-123/page.tsx:342 | a string without the separator splits to itself alone |
| Text.SplitAfterPiece | src/app/profile/mock-id-123/page.tsx:342 | a separator-free piece followed by the separator splits off as the first part |
| Text.SplitJoin | src/app/profile/mock-id-123/page.tsx:342 | splitting the join of separator-free pieces gives the pieces back |
| Text.ConcatAppend | src/app/api/portfolio/render/route.ts:149 | `join('')` of two lists concatenated is the concatenation of their joins |
| Text.ConcatAt | src/app/api/portfolio/render/route.ts:149 | element `i` appears whole in `join('')`, between the joins of the elements before and after it |
| Text.DigitChar | src/app/api/portfolio/render/route.ts:139 | the digit character of a digit denotes that digit |
| Text.NatToString | src/app/api/portfolio/render/route.ts:139 | `String(n)` is a canonical decimal numeral: digits only, no leading zero |
| Text.IntToString | src/app/api/portfolio/generate/route.ts:97 | `String(i)` of an integer is never empty |
| Text.DigitsValueOfNatToString | src/app/api/portfolio/render/route.ts:139 | reading back the printed number gives the number |
| Text.CanonicalPositive | src/lib/i18n.tsx:63 | a canonical numeral that does not start with '0' denotes a positive number |
| Text.NatToStringOfDigitsValue | src/lib/i18n.tsx:63 | printing the value of a canonical numeral gives the numeral back, so numerals and numbers correspond one to one |
| Text.DigitsValueLeadingZeros | src/app/api/portfolio/render/route.ts:139 | zeros put in front of a numeral keep it a numeral and keep its value |
| Text.Repeat | src/app/api/portfolio/render/route.ts:139 | `n` copies of the fill character |
| Text.PadStart | src/app/api/portfolio/render/route.ts:139 | `padStart(width, fill)` has length `max(width, \|s\|)`, ends with `s`, and is fill before it |
| Text.ToUpperAscii | src/app/api/portfolio/render/route.ts:162 | a lower-case ASCII letter maps to its upper-case letter; every other character is unchanged |
| Text.ContainsMiddle | src/app/api/portfolio/render/route.ts:164-403 | a piece concatenated between two others is contained in the result |
| Text.ContainsInner | src/app/api/portfolio/render/route.ts:149 | a piece at the front of the right operand of a concatenation is contained in it |
| Text.ContainsFirst | src/app/api/portfolio/render/route.ts:164-403 | the first of three concatenated pieces is contained in the result |
| Text.ContainsWhole | src/app/api/portfolio/render/route.ts:164-403 | a string contains itself |
| Text.ContainsTransitive | src/app/api/portfolio/render/route.ts:164-403 | containment is transitive |
| Text.Dedup | src/app/profile/mock-id-123/page.tsx:44 | `Array.from(new Set(xs))` has no duplicates and has exactly the elements of `xs` |
| Text.DedupOfDistinct | src/app/profile/mock-id-123/page.tsx:44 | a duplicate-free list goes through a `Set` unchanged |
| Text.DedupAppend | src/app/profile/mock-id-123/page.tsx:44 | de-duplicating a duplicate-free list plus one element appends the element when it is new and otherwise gives the list back |
| Text.RemoveAll | src/app/profile/mock-id-123/page.tsx:48 | `filter(y => y !== x)` drops every `x` and keeps every other element with its multiplicity |
| Text.RemoveAllAbsent | src/app/profile/mock-id-123/page.tsx:48 | removing an element that is not there changes nothing |
| Text.RemoveAllAppend | src/app/profile/mock-id-123/page.tsx:48 | removal distributes over concatenation, so the kept elements stay in order |
| Text.NonEmpty | src/app/profile/mock-id-123/page.tsx:126 | `filter(Boolean)` drops every empty string and keeps every other element with its multiplicity |
| Collation.BelowTotal | src/app/api/locations/route.ts:24 | any two strings are ordered one way or the other |
| Collation.BelowAntisymmetric | src/app/api/locations/route.ts:24 | two strings ordered both ways are equal |
| Collation.BelowTransitive | src/app/api/locations/route.ts:24 | the order is transitive |
| Collation.SortInPlace | src/app/api/locations/route.ts:24 | the in-place sort leaves the array sorted and a permutation of what it held |
| Collation.Insert | src/app/api/locations/route.ts:24 | one insertion step extends the sorted prefix by one element and permutes the array |
| Collation.SortedCopy | src/app/api/locations/route.ts:17 | sorting a list gives a sorted permutation of it |
| Collation.SortedHeadBelow | src/app/api/locations/route.ts:24 | the first element of a sorted list sorts no later than any element in it |
| Collation.SortedTail | src/app/api/locations/route.ts:24 | the tail of a sorted list is sorted |
| Collation.SortedUnique | src/app/api/locations/route.ts:24 | two sorted lists with the same elements are equal, so the sort's result depends only on the elements |
| PortfolioRender.WithDefaults | src/app/api/portfolio/render/route.ts:12-20 | the POST body's defaulting, field by field; `EmptyRecordDefaults` and `GivenFieldsKept` state both directions |
| PortfolioRender.HandleRender | src/app/api/portfolio/render/route.ts:6-20 | a request without `portfolioData` is refused with 400 'Missing portfolioData' before rendering; any other is rendered, with the template defaulting to 'modern' |
| PortfolioRender.EmptyRecordDefaults | src/app/api/portfolio/render/route.ts:12-20 | a record with no field gets 'Your Name', 'Professional Headline', the default bio, no skills, no projects, no image and an empty style |
| PortfolioRender.GivenFieldsKept | src/app/api/portfolio/render/route.ts:12-20 | a record that gives every field is rendered with exactly those fields |
| PortfolioRender.ResolveTheme | src/app/api/portfolio/render/route.ts:111-114 | every theme field is non-empty; with no style the theme is '#667eea', '#1e3a5f', '#0f1c2e', 'modern'; with a style, each of the four fields keeps its given value when that is non-empty and takes its default when it is missing or empty |
| PortfolioRender.ResolveThemeIdempotent | src/app/api/portfolio/render/route.ts:111-114 | a resolved theme, given back as the style, resolves to itself |
| PortfolioRender.FontFamily | src/app/api/portfolio/render/route.ts:116-119 | the lookup is total: 'classic' gives Georgia, 'tech' Courier New, 'playful' Comic Sans, and exactly every other style the system sans-serif stack |
| PortfolioRender.CardNumber | src/app/api/portfolio/render/route.ts:139 | card `i`'s label is a numeral of `i + 1` at least two digits wide: '0' in front of a one-digit number, the plain numeral otherwise |
| PortfolioRender.ShownImages | src/app/api/portfolio/render/route.ts:122 | at most the first three images, in order; all of them when there are three or fewer |
| PortfolioRender.ImagesHtml | src/app/api/portfolio/render/route.ts:122-127 | the image column is empty exactly when the project has no images |
| PortfolioRender.ToolsHtml | src/app/api/portfolio/render/route.ts:129-131 | the tools line is empty exactly when the project lists no tools |
| PortfolioRender.SkillTagsHtml | src/app/api/portfolio/render/route.ts:133-135 | the skill tags are empty exactly when the project lists no skills |
| PortfolioRender.CardTitle | src/app/api/portfolio/render/route.ts:141 | the title is never empty: the project's name when it is non-empty, 'Untitled Project' otherwise |
| PortfolioRender.CardHtml | src/app/api/portfolio/render/route.ts:137-148 | one numbered project card; `CardNumber`, `CardTitle`, `ImagesHtml`, `ToolsHtml` and `SkillTagsHtml` state its parts |
| PortfolioRender.ProjectsHtml | src/app/api/portfolio/render/route.ts:121-149 | the cards joined with no separator; `ProjectsHtmlAppend` and `CardInProjectsHtml` state that every card is in it, in order |
| PortfolioRender.Cards | src/app/api/portfolio/render/route.ts:121-149 | one card per project |
| PortfolioRender.CardsAppend | src/app/api/portfolio/render/route.ts:121-149 | appending a project appends its card, numbered after the others, and keeps the earlier cards |
| PortfolioRender.CardAt | src/app/api/portfolio/render/route.ts:121-149 | card `i` is the card of project `i` with number `i`, so the cards follow the input order |
| PortfolioRender.ProjectsHtmlAppend | src/app/api/portfolio/render/route.ts:121-149 | the project markup of one more project is the old markup followed by the new card |
| PortfolioRender.CardInProjectsHtml | src/app/api/portfolio/render/route.ts:121-149 | every project's card is part of the project markup |
| PortfolioRender.SkillsSectionHtml | src/app/api/portfolio/render/route.ts:151-158 | the skills section is empty exactly when there are no skills |
| PortfolioRender.Initial | src/app/api/portfolio/render/route.ts:162 | `name.charAt(0).toUpperCase()`: nothing for an empty name, otherwise one character, the upper-cased first one |
| PortfolioRender.AvatarHtml | src/app/api/portfolio/render/route.ts:160-162 | without a (non-empty) profile image the avatar is the placeholder; with one, the image URL is in the avatar |
| PortfolioRender.TemplateIgnored | src/app/api/portfolio/render/route.ts:108 | the `template` argument never changes the page |
| PortfolioRender.AvatarOnPage | src/app/api/portfolio/render/route.ts:380-382 | the avatar is on the page |
| PortfolioRender.StyleSheet | src/app/api/portfolio/render/route.ts:164-378 | the style rules, with the theme's colours and font; `ResolveTheme` states the theme it receives |
| PortfolioRender.PortfolioHtml | src/app/api/portfolio/render/route.ts:107-404 | `generatePortfolioHTML`: the head, the project markup and the end of the page; `AvatarOnPage`, `ProjectsOnPage` and `CardOnPage` state what is on it |
| PortfolioRender.HeadOnPage | src/app/api/portfolio/render/route.ts:164-391 | the part before the project cards (styles, avatar, header, skills) is on the page |
| PortfolioRender.AvatarInHead | src/app/api/portfolio/render/route.ts:380-382 | the avatar is in the part before the cards |
| PortfolioRender.PlaceholderOnPage | src/app/api/portfolio/render/route.ts:160-162 | with no profile image the page shows the initial-letter placeholder |
| PortfolioRender.ImageOnPage | src/app/api/portfolio/render/route.ts:160-161 | with a profile image its URL is on the page |
| PortfolioRender.ProjectsOnPage | src/app/api/portfolio/render/route.ts:392-395 | the project markup is on the page |
| PortfolioRender.CardOnPage | src/app/api/portfolio/render/route.ts:121-149 | every project's numbered card is on the page |
| PortfolioRender.AvaPlaceholder | src/app/api/portfolio/render/route.ts:162 | the name 'Ava' gives the placeholder letter 'A' |
| PortfolioGenerate.Pow2 | src/app/api/portfolio/generate/route.ts:15 | `Math.pow(2, n)` is at least 1 |
| PortfolioGenerate.FetchWithBackoff | src/app/api/portfolio/generate/route.ts:11-30 | at least one call and no more than the retry budget allows; the wait before retry `k` is 1000·2^k ms; every call but the last failed; the last succeeded or the retries were spent; the loop ends with the last call's response, or with the exhaustion error when it raised |
| PortfolioGenerate.TraceDetermined | src/app/api/portfolio/generate/route.ts:11-30 | any trace meeting that contract is the trace of `fetchWithBackoff`, so the contract determines it |
| PortfolioGenerate.OkReturnedAtOnce | src/app/api/portfolio/generate/route.ts:13-14 | an ok response is returned after one call, with no wait |
| PortfolioGenerate.AtMostFourCalls | src/app/api/portfolio/generate/route.ts:8-20 | at most four calls are made, and an error response on the fourth is returned, not thrown |
| PortfolioGenerate.AllRaise | src/app/api/portfolio/generate/route.ts:22-28 | when every call raises: four calls, waits of 1000, 2000 and 4000 ms, then the exhaustion error |
| PortfolioGenerate.ExhaustedMessageText | src/app/api/portfolio/generate/route.ts:28 | the exhaustion message reads 'API call failed after 3 attempts.' |
| PortfolioGenerate.TwoFailuresThenOk | src/app/api/portfolio/generate/route.ts:11-30 | an error response, an exception, then success: three calls, waits of 1000 and 2000 ms, the success returned |
| PortfolioGenerate.Level | src/app/api/portfolio/generate/route.ts:97 | `proficiency_level \|\| 3`: a given non-zero level is kept; a missing or zero level becomes 3 |
| PortfolioGenerate.FormatSkill | src/app/api/portfolio/generate/route.ts:97 | one skill as text; `SkillShown` states every case |
| PortfolioGenerate.SkillsText | src/app/api/portfolio/generate/route.ts:96-98 | the skills joined with ', '; `SkillsTextAppend` states it |
| PortfolioGenerate.FormatProject | src/app/api/portfolio/generate/route.ts:93 | one project as text; `ProjectTitleShown` and `CreatorRole` state its defaults |
| PortfolioGenerate.ProjectsText | src/app/api/portfolio/generate/route.ts:92-94 | the projects joined with the '---' separator; `ProjectsTextAppend` states it |
| PortfolioGenerate.SkillShown | src/app/api/portfolio/generate/route.ts:96-98 | a string skill is shown verbatim; a rated one as `name (level/5)`: a missing level or level 0 shows 3, a positive level reads back as itself, and a negative level is kept and shown with its minus sign |
| PortfolioGenerate.ProjectTitleShown | src/app/api/portfolio/generate/route.ts:92-94 | a project entry opens with its title: `name`, else `project_title_en`, else 'Untitled' |
| PortfolioGenerate.CreatorRole | src/app/api/portfolio/generate/route.ts:93 | a project without a role is shown with the role 'Creator' |
| PortfolioGenerate.ProjectsTextAppend | src/app/api/portfolio/generate/route.ts:92-94 | no projects give an empty block; one more project adds '\n---\n' and its entry at the end |
| PortfolioGenerate.SkillsTextAppend | src/app/api/portfolio/generate/route.ts:96-98 | no skills give an empty line; one more skill adds ', ' and its entry at the end |
| PortfolioGenerate.FirstCandidateText | src/app/api/portfolio/generate/route.ts:139-140 | the text of the first candidate, when the body has one; `Answer` states what the route makes of it |
| PortfolioGenerate.Answer | src/app/api/portfolio/generate/route.ts:137-153 | success (status 200, with the portfolio) exactly when the first candidate's text is there and parses; a reply without candidates is the 500 'no candidates' failure; every other failure is a 500 |
| PortfolioGenerate.Consult | src/app/api/portfolio/generate/route.ts:131-153 | the service is called one to four times; a loop that throws becomes the 500 internal error; a returned response, even an error response, is answered by `Answer` on its candidates |
| PortfolioGenerate.HandleGenerate | src/app/api/portfolio/generate/route.ts:79-89 | no key gives 500 'Missing GEMINI_API_KEY' without reading the body; a body that is not JSON gives the 500 internal error; no `userData` gives 400; for a well-typed `userData` the service is called exactly when all three guards pass, and the reply is that of `Consult` |
| IntakeEditing.AddTag | src/app/profile/mock-id-123/page.tsx:41-46 | an input that trims to nothing changes nothing; otherwise the input is cleared and the list, without duplicates, holds the old tags and the trimmed input |
| IntakeEditing.AddTagAppends | src/app/profile/mock-id-123/page.tsx:44 | on a duplicate-free list the trimmed input is appended at the end when new, and the list is unchanged otherwise |
| IntakeEditing.RemoveTagUndoesAdd | src/app/profile/mock-id-123/page.tsx:48 | removing a tag just added to a list that lacked it gives the list back |
| IntakeEditing.Merge | src/app/profile/mock-id-123/page.tsx:103 | `{ ...p, ...patch }`: each given patch field replaces the project's; `MergeIdempotent` states it |
| IntakeEditing.EmptyProject | src/app/profile/mock-id-123/page.tsx:97 | the new project: the given id, every other field empty |
| IntakeEditing.WithNewProject | src/app/profile/mock-id-123/page.tsx:96-98 | `addProject`: the empty project appended; `RemoveUndoesAddProject` states its inverse |
| IntakeEditing.MergeIdempotent | src/app/profile/mock-id-123/page.tsx:103 | merging a patch twice is merging it once, and the empty patch changes nothing |
| IntakeEditing.WithoutProject | src/app/profile/mock-id-123/page.tsx:100 | exactly the projects with another id are kept |
| IntakeEditing.WithoutProjectAppend | src/app/profile/mock-id-123/page.tsx:100 | removal distributes over concatenation, so the kept projects stay in order |
| IntakeEditing.WithoutProjectAbsent | src/app/profile/mock-id-123/page.tsx:100 | removing an id that no project has changes nothing |
| IntakeEditing.RemoveUndoesAddProject | src/app/profile/mock-id-123/page.tsx:96-100 | adding a project under a fresh id and removing that id gives the list back |
| IntakeEditing.Patched | src/app/profile/mock-id-123/page.tsx:102-104 | an update keeps the number of projects |
| IntakeEditing.UpdateOnlyMatching | src/app/profile/mock-id-123/page.tsx:102-104 | projects with the id get the patch merged in; all others are unchanged; an unknown id changes nothing |
| IntakeEditing.UpdateIdempotent | src/app/profile/mock-id-123/page.tsx:102-104 | repeating an update that keeps the id changes nothing more |
| IntakeEditing.FirstWithId | src/app/profile/mock-id-123/page.tsx:109 | `find` gives the index of the first project with the id, and none exactly when no project has it |
| IntakeEditing.WithImages | src/app/profile/mock-id-123/page.tsx:106-115 | with no file or an unknown id nothing changes; otherwise each project with the id gets the first such project's images followed by the non-empty reads of the files taken (as many as the cap allows), and other projects are unchanged |
| IntakeEditing.ImageCap | src/app/profile/mock-id-123/page.tsx:111-114 | the chosen project keeps its images in front; with at most 3 images it never gets more than 3, and with 3 or more it gets none |
| IntakeEditing.FullProjectUnchanged | src/app/profile/mock-id-123/page.tsx:111-112 | a project that already has 3 images gets none |
| IntakeEditing.WithoutImage | src/app/profile/mock-id-123/page.tsx:117-121 | each project with the id gets the first such project's images with every copy of the URL removed, and nothing else of it changes; other projects are unchanged; an unknown id changes nothing |
| IntakeEditing.WithProjectSkill | src/app/profile/mock-id-123/page.tsx:123-128 | only the skills of projects with the id change; they become duplicate-free and free of empty strings, keep every non-empty skill the first such project had, contain the trimmed value when it is non-empty, and hold nothing else; an unknown id changes nothing |
| IntakeEditing.TrimAll | src/app/profile/mock-id-123/page.tsx:342 | `map(s => s.trim())`: element `k` is the trimmed element `k` |
| IntakeEditing.ParseCommaList | src/app/profile/mock-id-123/page.tsx:342 | every parsed entry is non-empty, trimmed and comma-free |
| IntakeEditing.TrimmedPieces | src/app/profile/mock-id-123/page.tsx:342 | trimming comma-free pieces gives trimmed, comma-free pieces |
| IntakeEditing.TrimSub | src/app/profile/mock-id-123/page.tsx:342 | trimming adds no character |
| IntakeEditing.Spaced | src/app/profile/mock-id-123/page.tsx:342 | each element with one space in front |
| IntakeEditing.JoinFirstPrefix | src/app/profile/mock-id-123/page.tsx:342 | a prefix on the first element is a prefix of the join |
| IntakeEditing.JoinCommaSpace | src/app/profile/mock-id-123/page.tsx:342 | `join(', ')` is the join on ',' of the elements with a space in front of all but the first |
| IntakeEditing.TrimAllSpaced | src/app/profile/mock-id-123/page.tsx:342 | trimming the spaced pieces gives the trimmed entries back |
| IntakeEditing.SpacedCommaFree | src/app/profile/mock-id-123/page.tsx:342 | the spaced pieces of comma-free entries are comma-free |
| IntakeEditing.CommaListRoundTrip | src/app/profile/mock-id-123/page.tsx:342 | parsing the shown `join(', ')` of non-empty, trimmed, comma-free entries gives the entries back |
| IntakeEditing.SavedImage | src/app/profile/mock-id-123/page.tsx:179-187 | a `data:` URL whose upload gives a non-empty public URL becomes that URL; a `data:` URL whose upload fails stays; any other entry is kept |
| IntakeEditing.SavedProject | src/app/profile/mock-id-123/page.tsx:176-190 | a saved project differs only in its images, which keep their number and order, each one rewritten as above |
| IntakeEditing.FailedUploadsKeepProjects | src/app/profile/mock-id-123/page.tsx:135-146 | when every upload fails, saving keeps every project as it was |
| IntakeEditing.IntakeForm.constructor | src/app/profile/mock-id-123/page.tsx:39 | the page starts with empty lists and empty inputs, and its invariant holds |
| IntakeEditing.IntakeForm.AddSkill | src/app/profile/mock-id-123/page.tsx:41-46 | the skills and their input become `AddTag` of the old ones; the other fields and the invariant are kept |
| IntakeEditing.IntakeForm.RemoveSkill | src/app/profile/mock-id-123/page.tsx:48 | the skills lose exactly the value, and the invariant is kept |
| IntakeEditing.IntakeForm.AddCert | src/app/profile/mock-id-123/page.tsx:50-55 | the certifications and their input become `AddTag` of the old ones, and the invariant is kept |
| IntakeEditing.IntakeForm.RemoveCert | src/app/profile/mock-id-123/page.tsx:57 | the certifications lose exactly the value, and the invariant is kept |
| IntakeEditing.IntakeForm.AddLang | src/app/profile/mock-id-123/page.tsx:59-64 | the languages and their input become `AddTag` of the old ones, and the invariant is kept |
| IntakeEditing.IntakeForm.RemoveLang | src/app/profile/mock-id-123/page.tsx:66 | the languages lose exactly the value, and the invariant is kept |
| IntakeEditing.IntakeForm.AddProject | src/app/profile/mock-id-123/page.tsx:96-98 | one empty project with the given id is appended, and the invariant is kept |
| IntakeEditing.IntakeForm.RemoveProject | src/app/profile/mock-id-123/page.tsx:100 | the projects with the id are removed, and the invariant is kept |
| IntakeEditing.IntakeForm.UpdateProject | src/app/profile/mock-id-123/page.tsx:102-104 | the patch is merged into the projects with the id; the image cap survives a patch that respects it |
| IntakeEditing.IntakeForm.HandleProjectImage | src/app/profile/mock-id-123/page.tsx:106-115 | the projects become `WithImages` of the old ones, and the 3-image cap is kept |
| IntakeEditing.IntakeForm.RemoveProjectImage | src/app/profile/mock-id-123/page.tsx:117-121 | the projects become `WithoutImage` of the old ones, and the invariant is kept |
| IntakeEditing.IntakeForm.AddProjectSkill | src/app/profile/mock-id-123/page.tsx:123-128 | the projects become `WithProjectSkill` of the old ones, and the invariant is kept |
| IntakeEditing.IntakeForm.SaveAll | src/app/profile/mock-id-123/page.tsx:164-191 | the saved list has one entry per project, in order, each the project with its images rewritten under the user's id or 'anon' |
| IntakeEditing.RemoveAllKeepsDistinct | src/app/profile/mock-id-123/page.tsx:48 | removal keeps a duplicate-free list duplicate-free |
| IntakeEditing.RemoveAllNoLonger | src/app/profile/mock-id-123/page.tsx:48 | removal never lengthens a list |
| I18n.InitialLocale | src/lib/i18n.tsx:18-26 | the initial locale is 'ar' exactly when the saved value is 'ar', and 'en' otherwise |
| I18n.Dir | src/lib/i18n.tsx:35 | the direction is right-to-left exactly for 'ar' |
| I18n.SavedLocaleRestored | src/lib/i18n.tsx:18-31 | a saved locale is restored as the initial locale |
| I18n.ParseIndex | src/lib/i18n.tsx:63 | a key segment names an array element exactly when it is a canonical decimal numeral |
| I18n.ParseIndexRoundTrip | src/lib/i18n.tsx:63 | the numeral of `i` names element `i`, and only that numeral does |
| I18n.Child | src/lib/i18n.tsx:63-64 | an object has a child exactly for its own keys, and that child is the key's value; an array or a string has a child exactly for `length` and for an index in range, which gives the item or the one-character string; the other scalar values have none |
| I18n.ArrayElementReached | src/lib/i18n.tsx:63-64 | the numeral of an index reaches that element of an array |
| I18n.Step | src/lib/i18n.tsx:63-64 | one step of the walk: only a truthy value is descended into, through `Child` |
| I18n.Resolve | src/lib/i18n.tsx:60-68 | the walk over the key's segments; `ResolveAppend` and `NestResolves` state it |
| I18n.ResolveAppend | src/lib/i18n.tsx:60-68 | walking a path in two parts is walking the first part and then the second from where it ended |
| I18n.Translate | src/lib/i18n.tsx:57-72 | before loading the answer is `fallback \|\| key`; when the walk of the key's segments reaches a string, that string is the answer; any other answer is the fallback or the key |
| I18n.MissingGivesFallback | src/lib/i18n.tsx:66-70 | a missing segment or a value that is not a string gives `fallback \|\| key` |
| I18n.EmptyFallbackIsNone | src/lib/i18n.tsx:59 | an empty fallback behaves like no fallback |
| I18n.NestedKeyFound | src/lib/i18n.tsx:60-69 | a string stored under a dotted path is what `t` of that dotted key returns, whatever the fallback |
| I18n.NestResolves | src/lib/i18n.tsx:60-68 | walking a path through the tree nested along it reaches the leaf |
| I18n.I18nProvider.constructor | src/lib/i18n.tsx:18-28 | the provider starts in the initial locale, with no translations loaded |
| I18n.I18nProvider.SetLocale | src/lib/i18n.tsx:55 | the locale becomes the given one |
| I18n.I18nProvider.TranslationsLoaded | src/lib/i18n.tsx:40-53 | translations for the current locale are installed (an empty object when the import failed); a late answer for another locale changes nothing |
| I18n.I18nProvider.T | src/lib/i18n.tsx:57-72 | the loop over the key's segments returns exactly `Translate` of the loaded translations |
| Signup.Utf16Length | src/app/auth/signup/page.tsx:25 | the JavaScript length of a string is between its number of code points and twice that |
| Signup.CheckUsername | src/app/auth/signup/page.tsx:24-34 | accepted exactly when the trimmed name is 3 to 30 UTF-16 units long and all its characters are letters, digits, '.', '_' or '-', under the trimmed name; the length message exactly when the length is out of bounds, so it takes precedence over the charset message |
| Signup.AcceptedIsAscii | src/app/auth/signup/page.tsx:25-34 | an accepted name has 3 to 30 characters |
| Signup.AsciiUtf16Length | src/app/auth/signup/page.tsx:25-34 | a name of whitelisted characters has a JavaScript length equal to its number of characters |
| Signup.CheckTrimmed | src/app/auth/signup/page.tsx:24 | the check sees only the trimmed name: trimming first changes nothing |
| Signup.ValidNameAccepted | src/app/auth/signup/page.tsx:25-34 | every name of 3 to 30 whitelisted characters is accepted as it is |
| Signup.Submit | src/app/auth/signup/page.tsx:24-68 | a rejected name ends with its message and no call; the lookup happens exactly for accepted names; a taken name leaves the taken message; sign-up exactly when the name is also not taken; a sign-up error leaves its message, a thrown error its message or the fallback; the profile is written under the user id and the trimmed name exactly when sign-up gives a user id; redirect and success message exactly on sign-up success |
| Signup.ProfileUsesTrimmedName | src/app/auth/signup/page.tsx:56-60 | a successful sign-up with a user id writes the profile under that id and the trimmed name |
| Locations.WithPalestine | src/app/api/locations/route.ts:23 | 'Palestine' is inserted only when absent: the list is unchanged when it is there, and otherwise it is put in front of the unchanged list |
| Locations.CountryNames | src/app/api/locations/route.ts:22-23 | the countries are the keys without 'Israel', with 'Palestine' |
| Locations.CountryNamesDistinct | src/app/api/locations/route.ts:22-23 | over distinct keys no country appears twice, and 'Palestine' appears exactly once |
| Locations.CitiesOf | src/app/api/locations/route.ts:15 | a country's entry when it is an array, and [] otherwise |
| Locations.Get | src/app/api/locations/route.ts:5-29 | a load failure gives the 500 error; with a country, that country's cities sorted; without one, the country list sorted |
| Locations.CountryListDetermined | src/app/api/locations/route.ts:22-24 | the country list does not depend on the order of the keys |
| Registration.KeptNames | src/components/ProfileRegistrationForm.tsx:78-81 | the kept names are the library's names except 'Israel', no more of them than countries |
| Registration.IsoMap | src/components/ProfileRegistrationForm.tsx:78-82 | the map has a code exactly for the kept names |
| Registration.IsoMapLast | src/components/ProfileRegistrationForm.tsx:82 | a kept country's code is the one its last occurrence gives |
| Registration.CollectCountries | src/components/ProfileRegistrationForm.tsx:75-88 | the loop builds exactly the kept names with 'Palestine' added when absent, and the code map |
| Registration.StaticCountryOptions | src/components/ProfileRegistrationForm.tsx:96 | the fallback drops 'Israel' and appends 'Palestine' at the end unconditionally |
| Registration.CityCandidates | src/components/ProfileRegistrationForm.tsx:106-139 | no country gives []; 'Palestine' its seven cities; no ISO code the curated list or []; library cities are the first 500; a failing library gives the curated list or all cities; nothing is installed exactly when an unmounted effect gets library cities |
| Registration.NoLibraryCitiesFallsBack | src/components/ProfileRegistrationForm.tsx:133 | when the library finds no city, the curated list or [] is offered |
| Registration.AdjacentSorted | src/components/ProfileRegistrationForm.tsx:115 | a list ordered pairwise between neighbours is sorted |
| Registration.PalestineCitiesSortedIsSorted | src/components/ProfileRegistrationForm.tsx:115 | the listed order of the seven cities is sorted |
| Registration.PalestineCitiesPermuted | src/components/ProfileRegistrationForm.tsx:114-115 | that order holds the same seven cities |
| Registration.PalestineCitiesSortedOrder | src/components/ProfileRegistrationForm.tsx:114-115 | any sorted arrangement of the seven cities is that order |
| Registration.RegistrationForm.constructor | src/components/ProfileRegistrationForm.tsx:12-16 | the form starts with no country or city, the static options and an empty code map |
| Registration.RegistrationForm.ChangeCountry | src/components/ProfileRegistrationForm.tsx:167 | typing a country sets it and clears the chosen city |
| Registration.RegistrationForm.LoadCountries | src/components/ProfileRegistrationForm.tsx:66-101 | a library that fails gives the static fallback; a mounted form gets the built list and map; an unmounted one keeps its state |
| Registration.RegistrationForm.LoadCities | src/components/ProfileRegistrationForm.tsx:103-143 | when the library fails the fallback list is installed as it is, unsorted; any other candidates are installed sorted and permuted; the options stay when nothing is installed |
| Registration.PalestineOptions | src/components/ProfileRegistrationForm.tsx:113-116 | choosing 'Palestine' offers its seven cities in the sorted order |

## Left out

- The headless browser: launch, viewport, page content, image-load wait, screenshot and base64 encoding. The render route ends in the model at handing the page to the browser.
- The route-level catch that turns a thrown error (such as a non-JSON request) into a 500 render failure is not modelled; only the 400 guard and the defaulting are.
- Fields given as explicit `null` are treated like missing ones. In the source, `null` skips a destructuring default (a `null` name would then throw).
- PortfolioRender.PortfolioHtml: the indentation whitespace of the template literals and the CSS comments of the style sheet (`/* Header Section */`, `/* Skills Section */`, `/* Projects Section */`, `/* Footer */`) are not reproduced; the tags, rules, text and their order are.
- The rest of the style sheet's whitespace is likewise normalised to one rule per line.
- Real `fetch` and `setTimeout`: the network is a given sequence of outcomes, and the delays are returned rather than waited for.
- The generation prompt text itself: the system prompt, the user query, `userGoal` and the schema object. Only the skill and project formatters are modelled.
- `JSON.parse` of the reply text is a parameter (`parse`), and the reply body is given already parsed.
- The Supabase calls are not modelled. This covers auth, the storage upload, the uniqueness lookup, sign-up and profile upsert. Their results are parameters (`upload`, `Services`).
  - An upsert that throws is not modelled.
  - The case-insensitive `ilike` match is the database's and is given as a count.
- `localStorage`: the saved locale is a parameter, and the locale is not written back.
  - The `saveAll` fallback to `localStorage` and the database insert are not modelled.
- `genId` (random UUIDs) and `Date.now`: project ids are given, and the resume upload path is left out.
- The resume upload is not modelled. This covers `handleResume` and the resume branch of `saveAll`.
- `FileReader`: the chosen files are given as the data URLs they read as.
- IntakeEditing.IntakeForm.HandleProjectImage: the source reads `projects` before awaiting the file reads, so a concurrent edit can be overwritten. The model applies the update atomically.
- Collation.SortInPlace: `localeCompare` is locale-sensitive collation. The model sorts by lexicographic code-point order, a total order standing in for it. The sorting proofs use only totality, antisymmetry and transitivity; `Registration.PalestineCitiesSortedIsSorted` and, through it, `Registration.PalestineOptions` evaluate the order on the seven concrete ASCII city names, for which `localeCompare` gives the same order.
- The in-place `sort` of the curated city list aliases the shared city module in the source. The model sorts a copy.
- Registration.RegistrationForm.LoadCities: the library call is not modelled. Its answer is the `lookup` parameter, and whether the effect was cleaned up is the `mounted` flag.
- Registration.RegistrationForm.LoadCountries: the library is a parameter in the same way, as the form receives it.
- PortfolioRender.Initial: `toUpperCase` is modelled for ASCII letters only; other characters are kept as they are. Strings are sequences of code points, so `charAt(0)` of a name that starts outside the Basic Multilingual Plane gives the whole character, where JavaScript gives a lone high surrogate (not representable as a Dafny `char`).
- Numbers in JSON are integers in the model (proficiency levels, counts); floating point is not modelled.
- Registration.CityCandidates: `countryIsoMap[country]` and `citiesByCountry[country]` are modelled as own-key lookups. The country is typed by the user, and plain-object indexing also sees inherited `Object.prototype` members, so a name such as "toString" or "constructor" finds an inherited function. Those names then take the library path and install that function as the city options; the model gives no ISO code and `[]` for them. This behaviour is not modelled.
- I18n.Child: only own properties are followed, as `hasOwnProperty` checks; inherited prototype keys do not arise in parsed JSON. A string's index children and its `length` count code points, where JavaScript counts UTF-16 code units; the two differ only for strings with characters outside the Basic Multilingual Plane.
- PortfolioGenerate.HandleGenerate: the request body is typed (`RequestBody`, `UserData`), so a `userData` whose `projects`, `skills`, `languages` or `certifications` is not an array, or holds a `null` entry, cannot be expressed; in the route such a body throws a TypeError while the prompt is built and gets the 500 internal error without any call to the service. That error path is not modelled.
- The dynamic imports of the country library and of the locale files are parameters.
- Toasts, routing, the loading flags and the rest of the UI are not modelled.
