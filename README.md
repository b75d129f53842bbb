# Resume optimiser: state machine, state record and document layout

This project models the core of a resume-tailoring service in Dafny.

- **The optimisation graph** (`app/workflows/resume_optimizer_graph.py`). TAILOR runs once. Then the resume is scored by ATS. The rule `check_score` picks PASS, STOP or IMPROVE. IMPROVE rewrites the resume and goes back to ATS. PASS and STOP both lead to GENERATE, which writes the document and ends the run. The three remote text-generation stages (tailor, ATS score, improve) are function-valued parameters. Every property holds whatever they return.
- **The state record** (`app/workflows/state.py`). It is a class whose fields the nodes update in place. The constructor gives each field its declared default.
- **The document generator** (`app/services/docx_generator.py`), at the level of text. A document is a sequence of paragraphs. A paragraph is a sequence of runs (plain text or a hyperlink) plus the space after it in points. The generator is a `Document` class whose methods append paragraphs, add runs and set spacing, as python-docx does. Every method is proved to build exactly the paragraphs of the pure function `Layout`.

Modules:

- `ResumeTypes` (`sections.dfy`): the resume content. Dictionaries with fixed keys become records. A key that may be absent becomes an `Option`.
- `State` (`state.dfy`): the class `ResumeOptimizerState`.
- `DocxGenerator` (`docx.dfy`):
  - bullet normalisation;
  - the header block;
  - the four sections;
  - the `Document` class and its builder methods.
- `ResumeOptimizerGraph` (`graph.dfy`): the decision rule, the four nodes, the dispatch loop and an end-to-end invocation with the shipped constants.

The run is described through a ghost sequence `scored`, the resume contents each ATS pass scored. `Chain` says that each entry is the one `NextToScore` predicts from the entries before it. The first entry is the tailored resume. Every later entry is the improvement of the previous one under the analysis the scorer gave it.

The model follows the code in points where a reader might expect otherwise:

- GENERATE sets `passed` to true on STOP as well as on PASS.
- `final_docx_path` holds the bare file name, not the `generated/` path.
- There are no checks on the shape of the skills, the number of bullets or the length of the summary in these files, so none are modelled.
- Protected experience facts are only passed to the remote stages. Nothing checks them.

## Model

| member | source | states |
|---|---|---|
| State.ResumeOptimizerState.constructor | app/workflows/state.py:4-28 | the four required fields are taken from the arguments; the five contact fields are taken from the arguments and default to None when omitted; score and analysis are None, the counter 0, passed false, the output path None |
| ResumeOptimizerGraph.CheckScore | app/workflows/resume_optimizer_graph.py:54-65 | PASS exactly when the score reaches the threshold; STOP exactly when it is below and the counter has reached the loop budget; IMPROVE exactly when both are below |
| ResumeOptimizerGraph.CheckScoreIgnoresCountOnPass | app/workflows/resume_optimizer_graph.py:61-62 | a passing score passes whatever the counter |
| ResumeOptimizerGraph.Merge | app/workflows/resume_optimizer_graph.py:34-39 | summary, experience and skills come from the stage result; education from the frozen copy |
| ResumeOptimizerGraph.NodeTailor | app/workflows/resume_optimizer_graph.py:22-41 | the sections become the tailored result merged with the frozen education; contact fields, originals, job description, score, analysis, counter and flags are unchanged |
| ResumeOptimizerGraph.NodeAts | app/workflows/resume_optimizer_graph.py:44-51 | score and analysis become the scorer's verdict on the current sections; nothing else changes |
| ResumeOptimizerGraph.NodeImprove | app/workflows/resume_optimizer_graph.py:68-89 | the sections become the improvement (given the stored analysis) merged with the frozen education; the counter goes up by one; nothing else changes |
| ResumeOptimizerGraph.FinalFileName | app/workflows/resume_optimizer_graph.py:103 | the name is "final_resume_", the id, then ".docx", in that order |
| ResumeOptimizerGraph.NodeGenerate | app/workflows/resume_optimizer_graph.py:92-123 | the document written is the layout of the current sections under the five contact fields; it goes to "generated/" plus the file name; the bare file name is stored and passed is set; sections, score and counter are unchanged |
| ResumeOptimizerGraph.ChainSnoc | app/workflows/resume_optimizer_graph.py:139-151 | appending the next predicted contents keeps the scored history a chain |
| ResumeOptimizerGraph.StepTailor | app/workflows/resume_optimizer_graph.py:137-139 | from the entry point, one TAILOR reaches ATS with the tailored resume as the next contents to score |
| ResumeOptimizerGraph.StepAts | app/workflows/resume_optimizer_graph.py:141-149 | one ATS pass extends the scored history by the current contents and routes to IMPROVE or GENERATE, with the facts each target needs |
| ResumeOptimizerGraph.StepImprove | app/workflows/resume_optimizer_graph.py:151 | one IMPROVE after a failing score within budget reaches ATS with the improved contents next, counter up by one |
| ResumeOptimizerGraph.RunToGenerate | app/workflows/resume_optimizer_graph.py:130-151 | the dispatch loop terminates and reaches GENERATE with the history a chain, every earlier score failing, and the budget exhausted if the last score fails |
| ResumeOptimizerGraph.Run | app/workflows/resume_optimizer_graph.py:130-153 | TAILOR and GENERATE run once each; ATS runs one more time than IMPROVE; IMPROVE runs as often as the counter rose, at most up to the loop budget; the scored contents form the chain from the start; all scores but the last fail; a failing last score means the budget ran out; education ends equal to the frozen copy; the contact fields and job description are untouched; the written document is the layout of the final sections |
| ResumeOptimizerGraph.Invoke | app/routers/optimize_router.py:38-59 | with threshold 85 and one loop, a fresh request is scored once or twice; it is improved once exactly when the tailored resume scored below 85, otherwise not at all; the final score is the scorer's verdict on the tailored contents (no improvement) or on their improvement under the analysis they received (one improvement); a failing final score means the improvement was spent |
| DocxGenerator.BulletCoreCuts | app/services/docx_generator.py:182 | the cleaned text is a slice of the input with only marker characters cut in front and only whitespace cut behind; it neither starts with a marker nor ends with whitespace |
| DocxGenerator.NormalizeBullet | app/services/docx_generator.py:179-183 | empty input gives the bare "• "; every result starts with "• "; after the prefix there is no leading marker and no trailing whitespace |
| DocxGenerator.NormalizeBulletIdempotent | app/services/docx_generator.py:179-183 | normalising a normalised bullet changes nothing |
| DocxGenerator.NormalizeBulletKeepsClean | app/services/docx_generator.py:182-183 | a text with no leading marker and no trailing whitespace only gains the prefix |
| DocxGenerator.SeparatedShape | app/services/docx_generator.py:103-121 | the contact line holds the items at even positions in order and " \| " at every odd position, so no separator leads or trails |
| DocxGenerator.SeparatedSnoc | app/services/docx_generator.py:109-121 | adding an item puts a separator before it exactly when an item is already there |
| DocxGenerator.SeparatedMembers | app/services/docx_generator.py:103-121 | a run is on the line exactly when it is an item, or it is the separator and there are two items or more |
| DocxGenerator.ContactLinks | app/services/docx_generator.py:114-121 | the LinkedIn (GitHub) hyperlink is on the contact line exactly when that field is present, pointing at its value |
| DocxGenerator.ContactTexts | app/services/docx_generator.py:105-112 | a present phone number is the first run of the contact line; a present email is the run after the separator that follows the phone, or the first run when there is no phone |
| DocxGenerator.ContactLineCount | app/services/docx_generator.py:103-121 | the contact line is empty exactly when no contact field is present, otherwise it has 2n-1 runs for n present fields |
| DocxGenerator.NameLine | app/services/docx_generator.py:88 | the name line is the stored name upper-cased, letter for letter, and "" when no name is stored |
| DocxGenerator.NameLineAsWrittenFailsWithoutName | app/services/docx_generator.py:88 | the name line as written agrees with the corrected one when a name is stored, and raises where the corrected one gives "" |
| DocxGenerator.AddContactItem | app/services/docx_generator.py:109-112 | one contact item extends the contact line by the separated item |
| DocxGenerator.AddContactLine | app/services/docx_generator.py:97-121 | the contact paragraph holds exactly the separated present items |
| DocxGenerator.AddResumeHeader | app/services/docx_generator.py:85-140 | appends the upper-cased name line, the contact line and an empty divider |
| DocxGenerator.AddSectionHeader | app/services/docx_generator.py:147-172 | appends one paragraph holding the upper-cased title |
| DocxGenerator.AddSummary | app/services/docx_generator.py:190-193 | appends the summary with 10pt after it |
| DocxGenerator.AddBullets | app/services/docx_generator.py:215-223 | appends one normalised paragraph per bullet and returns the position of the last one, None when there are none |
| DocxGenerator.AddJob | app/services/docx_generator.py:200-228 | appends exactly the job's block |
| DocxGenerator.JobBlockShape | app/services/docx_generator.py:200-228 | a job block is the heading, then the k-th normalised bullet at position k+1; 6pt follows only its last paragraph, which is the heading when there are no bullets |
| DocxGenerator.ExperienceParagraphsCount | app/services/docx_generator.py:196-230 | the experience section has one paragraph per job plus one per bullet |
| DocxGenerator.AddExperience | app/services/docx_generator.py:196-230 | appends the blocks of all jobs in order |
| DocxGenerator.AddEducation | app/services/docx_generator.py:233-256 | appends one paragraph per education entry, in order, each with 10pt after it |
| DocxGenerator.AddSkills | app/services/docx_generator.py:259-269 | appends one "category: " plus joined-skills paragraph per group, in order |
| DocxGenerator.LayoutSectionOrder | app/services/docx_generator.py:276-291 | the document is the three header paragraphs, then SUMMARY, EXPERIENCE, EDUCATION and SKILLS in that order, each heading followed by exactly its own paragraphs |
| DocxGenerator.GenerateFinalDocx | app/services/docx_generator.py:276-294 | the paragraphs saved are the full layout, and the given output path is returned |

## Left out

- The remote text-generation stages (`tailor_resume`, `ats_score`, `improve_resume`) are function parameters. Their prompts, the network calls and any parse failures inside them are not modelled. Modelling them as functions assumes they answer the same input the same way; the properties hold for any such answers.
- A stage result missing one of its keys, which raises KeyError in the nodes, is not modelled: `Transformed` always holds all three keys.
- The loop budget and pass score are the configuration `Config`. `Shipped` holds the shipped values 85 and 1.
- ResumeOptimizerGraph.Run: the graph library's step limit (25 steps by default) is not modelled. A run with k improvements takes 2k + 3 steps, so the shipped budget of one loop stays far below the limit. A budget that allows about a dozen failing rounds would raise a recursion error in the source where `Run` still renders a document.
- `uuid.uuid4()` is a string parameter `id`. `os.makedirs` and `doc.save` are left out. The saved document is returned as its paragraph sequence.
- Fonts, bold, sizes, alignment, margins, tab stops, indents, borders and the XML of hyperlinks are not modelled. Only text, links and the space after each paragraph are.
- `str.upper()` is modelled on the letters a to z only; Unicode case mapping, which can change length, is not.
- `str.strip()` and the regex class `\s` are modelled on the whitespace characters below U+0080 (space, tab, line feed, vertical tab, form feed, carriage return, U+001C to U+001F). Whitespace above U+007F, such as U+0085 and U+00A0, is not.
- `doc.add_paragraph("")` adds no run in python-docx. The model keeps one run holding "" for an empty summary. Bullets are unaffected: a normalised bullet is never empty.
- A title, company, degree or institution key that is present but holds None renders as "None" in the source, through the f-strings of app/services/docx_generator.py:206 and 242. The model only distinguishes present from absent keys and renders an absent one as "". A None date gives a run with no text (`add_run(None)`, lines 213 and 252), which matches the model's "".
- A `bullets` value of None, and a skills value that is a single string (which `", ".join` would split into characters), are not modelled: the types rule them out.
- The skills mapping is a sequence of groups in the mapping's iteration order.
- The aliasing of the education list between `resume_sections` and `original_education` is not modelled. Nothing mutates that list in place, so values capture its behaviour.
- ResumeOptimizerGraph.NodeGenerate, ResumeOptimizerGraph.Run, ResumeOptimizerGraph.Invoke, DocxGenerator.AddResumeHeader, DocxGenerator.GenerateFinalDocx: these render the name with the corrected `NameLine` (see Findings). With `full_name` None the source raises AttributeError at app/services/docx_generator.py:88: no document is written, `final_docx_path` and `passed` are not set, and the request fails. For that input the model promises a document the source never produces.
- The database, routers, authentication, file upload, section extraction and the browser extension are outside this model.

## Findings

| source | as written | input that shows it | evidently intended | confidence | as-written member | corrected member |
|---|---|---|---|---|---|---|
| app/services/docx_generator.py:88 | `user_info.get("full_name", "").upper()` on a dictionary built in app/workflows/resume_optimizer_graph.py:107-113 that always holds the key, so the default never applies | a state whose `full_name` is None, its declared default and what a resume row with a NULL `full_name` column gives: `.upper()` on None raises AttributeError | an empty name line | not executed; low, since the upload form requires a name | DocxGenerator.NameLineAsWritten, DocxGenerator.NameLineAsWrittenFailsWithoutName | DocxGenerator.NameLine |
