# React2Text document extraction and validation, in Dafny

React2Text reads Brazilian identity and vehicle documents (CNH, CRLV, RG): OCR text
comes in and a police-approach form comes out. This project models the logic between
those two points:

- the check-digit and shape validators and formatters for CPF, CNPJ, RENAVAM, plates,
  dates, CEP and phone numbers (`BrazilianValidators`, with worked examples in
  `ValidatorExamples`);
- the two line-based field extractors. `DataExtraction` follows `dataExtraction.js`:
  synthetic OCR lines, keyword windows, the father/mother split, regex fallbacks and
  placeholders. `OcrHook` follows the separate heuristic inside `useOcr.js`;
- the universal pattern pass, layout bands, document-type scores, context extraction
  and confidence arbitration (`AdvancedExtraction`), and the validating wrapper around
  an extractor (`ValidationWrapper`);
- the form record (`FormState`): the checkbox pairs and OCR plate extraction of the
  approach panel (`Approach`), the correction dialog's "text between two expressions"
  (`CorrectionModal`) and the report renderer (`ActionsReport`).

Shared pieces are in three more modules:

- `Text`: JavaScript's whitespace set, `trim`, `split`, `join`, `indexOf`, and
  upper/lower-case maps;
- `Patterns`: hand-written scanners for the deterministic regular expressions, with
  character-class "shapes" and `\b` word boundaries;
- `OcrModel`: OCR lines and responses, form values, and `updateField` calls.

Modelling choices:

- An extractor does not call `updateField`. It returns the sequence of `Update(field,
  value)` calls it would make, in order.
- A loop that reassigns variables is a `method` with invariants, proved equal to a
  specification function. The properties are then lemmas about that function.
- State the source mutates in place is a `class`:
  - `FormState.FormData`: the `formData` map;
  - `Approach.ApproachData`: the three visibility flags plus the form;
  - `CorrectionModal.Dialog`: the dialog's state hooks.
- Confidences are integer hundredths: 0.95 is 95.
- Document-type scores are sixtieths: every keyword list's length divides 60.
- Upper and lower case are length-preserving maps over ASCII and Latin-1.
- The mis-encoded literals of `dataExtraction.js` (`"V√° em Corrigir"`, `REP√öBLICA`, the
  `[A-Z√Ä-√ú\s]` class) are kept character for character, as the file has them.
- The six regular expressions in `useOcr.js` that need backtracking are not simulated.
  They come in as an `engine` parameter that returns a pattern's first capture group.
  Those six are at lines 190, 318, 319, 322, 334 and 387.

## Model

| member | source | states |
|---|---|---|
| BrazilianValidators.ValidateCPF | react2text/src/utils/brazilianValidators.js:11-44 | the loop over the two weighted sums answers exactly `IsValidCPF`: 11 digits after stripping, not all the same, both mod-11 check digits right |
| BrazilianValidators.CpfCheck | react2text/src/utils/brazilianValidators.js:28-29 | the check digit is at most 9 and is 0 exactly when the sum mod 11 is 0 or 1 (11 − r mapped to 0 when above 9) |
| BrazilianValidators.CpfCharacterization | react2text/src/utils/brazilianValidators.js:12-43 | a CPF is valid iff its 11 digits are the 9-digit base followed by the two check digits computed from it, and are not all equal |
| BrazilianValidators.MakeCPFValid | react2text/src/utils/brazilianValidators.js:21-43 | appending the computed check digits to any 9-digit base gives a valid CPF unless all 11 digits are equal |
| BrazilianValidators.CpfCheckDigitMutation | react2text/src/utils/brazilianValidators.js:40-43 | changing either check digit of a valid CPF to a different digit makes it invalid |
| BrazilianValidators.Countdown | react2text/src/utils/brazilianValidators.js:24-35 | the CPF weights are start, start−1, … for n positions |
| BrazilianValidators.CnpjWeights | react2text/src/utils/brazilianValidators.js:63-69 | the k-th CNPJ weight is the `pos` counter after k steps that fall from the start value to 2, then restart at 9 |
| BrazilianValidators.CnpjWeightTables | react2text/src/utils/brazilianValidators.js:60-83 | the two weight tables are 5,4,3,2,9,…,2 (12 entries) and 6,5,4,3,2,9,…,2 (13 entries) |
| BrazilianValidators.CnpjCheck | react2text/src/utils/brazilianValidators.js:71 | the check digit is 0 exactly when the sum mod 11 is below 2, otherwise 11 − r |
| BrazilianValidators.ValidateCNPJ | react2text/src/utils/brazilianValidators.js:51-87 | the loops answer exactly `IsValidCNPJ`: 14 digits, not all the same, both cycling-weight check digits right |
| BrazilianValidators.RenavamWeights | react2text/src/utils/brazilianValidators.js:125 | the ten weights are the digits of "3298765432" |
| BrazilianValidators.ValidateRenavam | react2text/src/utils/brazilianValidators.js:113-136 | the loop answers exactly `IsValidRenavam`: 11 digits, not all the same, last digit equal to the mod-11 check (0 for remainders 0 and 1) |
| BrazilianValidators.RenavamCheckDigitUnique | react2text/src/utils/brazilianValidators.js:132-135 | changing the check digit of a valid RENAVAM to another digit makes it invalid |
| BrazilianValidators.DaysInMonth | react2text/src/utils/brazilianValidators.js:159-166 | a month has 28 to 31 days |
| BrazilianValidators.DateFields | react2text/src/utils/brazilianValidators.js:146-151 | the day, month and year read from a DD/MM/YYYY string are within 0..99, 0..99, 0..9999 |
| BrazilianValidators.ValidateData | react2text/src/utils/brazilianValidators.js:143-167 | the method that patches the February entry of its day table answers exactly `IsValidDate` |
| BrazilianValidators.DateStringValid | react2text/src/utils/brazilianValidators.js:146-166 | the date written from (d, m, y) is valid iff 1 ≤ m ≤ 12, 1900 ≤ y ≤ 2100 and 1 ≤ d ≤ the month's length under the Gregorian leap rule |
| BrazilianValidators.LeapDay | react2text/src/utils/brazilianValidators.js:159-163 | 29/02/y is valid iff y is a leap year (÷4 and not ÷100, or ÷400) |
| BrazilianValidators.CleanPlaca | react2text/src/utils/brazilianValidators.js:97 | the cleaned plate is the input filtered to `[A-Z0-9]`, so every character kept is an upper-case letter or digit |
| BrazilianValidators.PlateShapeIsValid | react2text/src/utils/brazilianValidators.js:100-105 | any LLLDDDD or LLLDLDD string is a valid plate |
| BrazilianValidators.LowerCasePlateRejected | react2text/src/utils/brazilianValidators.js:97-105 | lower-case letters are dropped before the shape test, so a lower-case plate (letters then fewer than 7 digits) is rejected |
| BrazilianValidators.FormatCPFDigits | react2text/src/utils/brazilianValidators.js:200-204 | formatting keeps the digits and the validity; with 11 digits the result has the xxx.xxx.xxx-xx shape |
| BrazilianValidators.FormatCPFIdempotent | react2text/src/utils/brazilianValidators.js:200-204 | formatting a formatted CPF changes nothing |
| BrazilianValidators.CleanPlacaDashed | react2text/src/utils/brazilianValidators.js:97 | cleaning a hyphenated 7-character plate gives back the 7 characters |
| BrazilianValidators.PlateStartsWithLetters | react2text/src/utils/brazilianValidators.js:100-105 | both plate shapes are 7 long and start with three capitals |
| BrazilianValidators.FormatPlacaValid | react2text/src/utils/brazilianValidators.js:211-217 | a valid plate is formatted as its cleaned form hyphenated after the third character, and stays valid |
| BrazilianValidators.FormatPlacaIdempotent | react2text/src/utils/brazilianValidators.js:211-217 | formatting a formatted plate changes nothing |
| BrazilianValidators.ValidateAndClean | react2text/src/utils/brazilianValidators.js:225-247 | with empty input it returns (false, "", ""), and with an unknown type (false, value, value); otherwise the cleaned value is the whitespace-collapsed input, isValid is the type's validator, and the formatted value is the type's formatting of the cleaned value when valid, else the cleaned value |
| BrazilianValidators.ValidateAndCleanFormattedValid | react2text/src/utils/brazilianValidators.js:242-246 | whenever validateAndClean reports valid, its formatted value passes the same validator |
| BrazilianValidators.ValidateAndCleanCpfShape | react2text/src/utils/brazilianValidators.js:228-246 | a valid cleaned CPF is formatted as xxx.xxx.xxx-xx |
| ValidatorExamples.CpfExample | react2text/src/utils/brazilianValidators.js:11-44 | "529.982.247-25" is a valid CPF |
| ValidatorExamples.CnpjExample | react2text/src/utils/brazilianValidators.js:51-87 | "11222333000181" is a valid CNPJ |
| ValidatorExamples.RenavamExample | react2text/src/utils/brazilianValidators.js:113-136 | "12345678900" is a valid RENAVAM |
| ValidatorExamples.LeapYearExample | react2text/src/utils/brazilianValidators.js:159-163 | 29/02/2024 is valid |
| ValidatorExamples.CommonYearExample | react2text/src/utils/brazilianValidators.js:159-163 | 29/02/2023 is not valid |
| ValidatorExamples.ThirtyDayMonthExample | react2text/src/utils/brazilianValidators.js:154-166 | 31/04/2024 is not valid |
| ValidatorExamples.LegacyPlateExample | react2text/src/utils/brazilianValidators.js:100-105 | "ABC1234" is a valid plate |
| ValidatorExamples.DashedPlateExample | react2text/src/utils/brazilianValidators.js:97-105 | "ABC-1234" is a valid plate: the hyphen is stripped first |
| ValidatorExamples.MercosulPlateExample | react2text/src/utils/brazilianValidators.js:100-105 | "ABC1D23" is a valid plate |
| ValidatorExamples.ShortPrefixPlateExample | react2text/src/utils/brazilianValidators.js:100-105 | "AB12345" is not a valid plate |
| ValidatorExamples.CepExample | react2text/src/utils/brazilianValidators.js:174-179 | "01310-100" is a valid CEP: eight digits remain once the hyphen is stripped |
| ValidatorExamples.ShortCepExample | react2text/src/utils/brazilianValidators.js:174-179 | seven digits are not a CEP |
| ValidatorExamples.MobileExample | react2text/src/utils/brazilianValidators.js:186-193 | an eleven-digit number is a valid phone number |
| ValidatorExamples.ShortPhoneExample | react2text/src/utils/brazilianValidators.js:186-193 | nine digits are not a phone number |
| OcrModel.FieldUpdates | react2text/src/utils/dataExtraction.js:359-365 | the six data updates name abordado, naturalidade, genitora, cpf, dn, veiculoPlaca in that order, each with a text value |
| OcrModel.VehicleFlags | react2text/src/utils/dataExtraction.js:367-374 | the two vehicle updates set veiculoCheck to "a plate was found" and naoAplicaVeiculo to its negation |
| OcrModel.LastValue | react2text/src/utils/validationWrapper.js:29-33 | the value last written to a field is absent iff no call names the field, and is otherwise the value of a call naming it after which no call names it |
| DataExtraction.ConvertTextToOcrJson | react2text/src/utils/dataExtraction.js:7-43 | one parsed result whose ParsedText is the text; its lines are the non-blank input lines, trimmed, in order, with MinTop = 20·index |
| DataExtraction.ConvertRoundTrip | react2text/src/utils/dataExtraction.js:7-43 | when every input line is already non-empty and trimmed, joining the synthetic lines with newlines gives back the text |
| DataExtraction.SyntheticWords | react2text/src/utils/dataExtraction.js:11-17 | one synthetic word record per word |
| DataExtraction.LineHasKeyword | react2text/src/utils/dataExtraction.js:84-89 | the per-line loop answers whether the normalised line contains some normalised keyword |
| DataExtraction.FindLineByKeyword | react2text/src/utils/dataExtraction.js:83-92 | the search returns the lowest-index line that contains a keyword, after upper-casing and removing hyphens and whitespace from both; none if no line does |
| DataExtraction.NextLines | react2text/src/utils/dataExtraction.js:94-96 | the window holds the next `count` lines after `from`, in order, fewer only at the end of the list |
| DataExtraction.FirstLine | react2text/src/utils/dataExtraction.js:136-141 | the first line passing a test: it passes, no earlier line does, and none means no line passes |
| DataExtraction.FindFirstLine | react2text/src/utils/dataExtraction.js:136-141 | the for-of loop with break returns exactly that first line |
| DataExtraction.FirstTrimmedSpec | react2text/src/utils/dataExtraction.js:136-141 | the first passing line's trimmed text is empty iff no line passes, and is otherwise the trimmed text of a passing line |
| DataExtraction.FirstTrimmedWindow | react2text/src/utils/dataExtraction.js:135-141 | a value found in the lookahead window comes from a passing line strictly after the keyword line and at most `count` lines later |
| DataExtraction.NameLineNotBlank | react2text/src/utils/dataExtraction.js:98-128 | a line accepted as a name is not blank after trimming |
| DataExtraction.NameOfIsNameLine | react2text/src/utils/dataExtraction.js:130-153 | a resolved name is the trimmed text of some line passing isValidNameLine; an unresolved name means none of the first 10 lines passes |
| DataExtraction.KeywordNameLine | react2text/src/utils/dataExtraction.js:131-142 | the keyword-window name is the trimmed text of a line passing isValidNameLine |
| DataExtraction.HeadNameLine | react2text/src/utils/dataExtraction.js:145-153 | the fallback name comes from one of the first ten lines, and is empty only when none of them passes |
| DataExtraction.ExtractName | react2text/src/utils/dataExtraction.js:130-153 | the two loops compute `NameOf` |
| DataExtraction.PlaceFromDateLine | react2text/src/utils/dataExtraction.js:171-186 | a DATA/LOCAL/UF hit is the upper-cased "city/UF" with a two-letter UF |
| DataExtraction.DateCityAt | react2text/src/utils/dataExtraction.js:178 | a match has a non-empty city and a two-letter UF; the city starts after the greedy whitespace run, or at its last space when no city letter follows and that space is in the class's range |
| DataExtraction.DateCityLetters | react2text/src/utils/dataExtraction.js:178 | every character of a matched city is in `[A-Z√Ä-√ö]` under the `i` flag, Unicode spaces of that range included |
| DataExtraction.DateCityBacktrack | react2text/src/utils/dataExtraction.js:178 | on "01/01/2000 U+2000/SP" the `\s+` gives back its U+2000, which becomes the city |
| DataExtraction.DateCityTrailingSpace | react2text/src/utils/dataExtraction.js:178 | on "01/01/2000 XU+2000/SP" the city is "X" with the U+2000 after it |
| DataExtraction.PlaceFromDateLineSpec | react2text/src/utils/dataExtraction.js:171-186 | no DATA, LOCAL E UF line gives ""; otherwise the result is non-empty iff one of the next two lines has a date-and-city match |
| DataExtraction.PlaceFromDateLineCity | react2text/src/utils/dataExtraction.js:178-181 | a stage-2 result is the upper-cased non-empty city of class letters, "/" and the two-letter UF |
| DataExtraction.CityHits | react2text/src/utils/dataExtraction.js:191 | every global "city/UF" match carries a two-character UF |
| DataExtraction.PlaceFromText | react2text/src/utils/dataExtraction.js:189-213 | the whole-text fallback yields an upper-cased "city/UF" whose city has 3 to 29 characters |
| DataExtraction.NaturalidadeShape | react2text/src/utils/dataExtraction.js:155-213 | naturalidade is empty, the keyword-window line (the trimmed text of a line that qualifies) or an upper-cased "city/UF" |
| DataExtraction.ExtractNaturalidade | react2text/src/utils/dataExtraction.js:155-213 | the three stages, loops included, compute `NaturalidadeOf` |
| DataExtraction.CollectMotherLines | react2text/src/utils/dataExtraction.js:218-234 | every collected line is a trimmed all-caps name line, and collection stops at the first stop-word line |
| DataExtraction.CollectValidLines | react2text/src/utils/dataExtraction.js:222-234 | the push loop with break computes `CollectMother` |
| DataExtraction.MotherStart | react2text/src/utils/dataExtraction.js:251-275 | the chosen start of the mother's name lies in 1..n−1 for three or more lines |
| DataExtraction.ChooseMotherSuffix | react2text/src/utils/dataExtraction.js:238-276 | no lines give "", one line gives that line, two or more give the trimmed join of a suffix starting at index ≥ 1 |
| DataExtraction.ChooseMotherLine | react2text/src/utils/dataExtraction.js:238-276 | the motherStartIndex search computes `ChooseMother` |
| DataExtraction.ExtractMother | react2text/src/utils/dataExtraction.js:215-277 | the genitora block computes `MotherOf` |
| DataExtraction.MotherOfNameChars | react2text/src/utils/dataExtraction.js:231-275 | the mother's name uses only the name-line alphabet (capitals, the mis-encoded accented range and spaces) |
| DataExtraction.CpfOfShape | react2text/src/utils/dataExtraction.js:279-302 | a resolved CPF has the shape xxx.xxx.xxx-xx and exactly 11 digits |
| DataExtraction.CpfFromTextFindsToken | react2text/src/utils/dataExtraction.js:294-301 | the whole-text fallback resolves iff a CPF-shaped token occurs in the text |
| DataExtraction.ExtractCpf | react2text/src/utils/dataExtraction.js:279-302 | the window loop and the fallback compute `CpfOf` |
| DataExtraction.DnOfShape | react2text/src/utils/dataExtraction.js:304-322 | a resolved date of birth has the DD/MM/YYYY shape |
| DataExtraction.DnTakesAnyDateShape | react2text/src/utils/dataExtraction.js:318-322 | without a NASC line, any DD/MM/YYYY text is taken as it is |
| DataExtraction.DnAcceptsInvalidDate | react2text/src/utils/dataExtraction.js:304-322 | there is no calendar check: 31/04/2024 is accepted though it is not a valid date |
| DataExtraction.ExtractDn | react2text/src/utils/dataExtraction.js:304-322 | the window loop and the fallback compute `DnOf` |
| DataExtraction.PlacaOfValid | react2text/src/utils/dataExtraction.js:324-349 | a resolved plate has one of the plate shapes and passes validatePlaca |
| DataExtraction.PlacaOfMissing | react2text/src/utils/dataExtraction.js:324-349 | the plate is unresolved iff no line has a plate token once whitespace is removed |
| DataExtraction.ExtractPlaca | react2text/src/utils/dataExtraction.js:324-349 | the window loop and the all-lines loop compute `PlacaOf` |
| DataExtraction.FinishRunShape | react2text/src/utils/dataExtraction.js:351-374 | eight updates: the six data fields in order with placeholders for the empty ones, then veiculoCheck = "plate found" and naoAplicaVeiculo = its negation |
| DataExtraction.JsonRunFlags | react2text/src/utils/dataExtraction.js:324-374 | on the JSON path veiculoCheck is true iff some line has a plate token, and naoAplicaVeiculo is its negation |
| DataExtraction.Linhas | react2text/src/utils/dataExtraction.js:385-402 | the pasted-text lines are the non-blank trimmed input lines, upper-cased |
| DataExtraction.ChooseMae | react2text/src/utils/dataExtraction.js:446-455 | fewer than two candidates give ""; otherwise the second candidate, extended by the third exactly when there is a third and the first words of candidates 1 and 3 differ |
| DataExtraction.CpfScanShape | react2text/src/utils/dataExtraction.js:458-463 | a CPF found on a line after the CPF keyword is xxx.xxx.xxx-xx from 11 digits |
| DataExtraction.DnScanShape | react2text/src/utils/dataExtraction.js:465-469 | a date found in the NASC window has the DD/MM/YYYY shape |
| DataExtraction.PlacaScanShape | react2text/src/utils/dataExtraction.js:471-474 | a plate found in the line scan is a 7-character valid plate |
| DataExtraction.TextRunFlags | react2text/src/utils/dataExtraction.js:477-497 | the pasted-text path makes the six data updates in order, then the two complementary vehicle flags |
| DataExtraction.ExtractFromText | react2text/src/utils/dataExtraction.js:382-498 | the index loop, one write-once step per field, computes `TextRun` |
| DataExtraction.ExtractFromJson | react2text/src/utils/dataExtraction.js:67-377 | the JSON extractor computes `FromJson`: nothing without a parsed result, the text path for an empty line list |
| DataExtraction.ExtractAndFillFields | react2text/src/utils/dataExtraction.js:48-62 | the entry point computes `FillFields` |
| DataExtraction.FromJsonShape | react2text/src/utils/dataExtraction.js:67-78 | a JSON run makes no update or exactly eight in the fixed field order with complementary flags, and eight whenever a parsed result exists |
| DataExtraction.FillFieldsShape | react2text/src/utils/dataExtraction.js:48-62 | missing or empty input makes no update; non-empty pasted text always makes the eight updates |
| OcrHook.NomeAttemptSpec | react2text/src/hooks/useOcr.js:161-176 | on a NOME/NAME line the name is line i+1, else line i+2, whichever first has ≥2 space-split tokens, no digit and no "HABILITAÇÃO", with whitespace collapsed |
| OcrHook.DateCityUfAt | react2text/src/hooks/useOcr.js:204-209 | a "date, city, UF" match has a non-empty city of city characters and a two-letter UF |
| OcrHook.MaeWindow | react2text/src/hooks/useOcr.js:226-249 | at most 10 lines after the filiation line, trimmed, cut at the first stop line |
| OcrHook.PossibleNamesSpec | react2text/src/hooks/useOcr.js:221-249 | at most 10 candidates, each the whitespace-collapsed form of a window line that is all-caps, >3 characters, ≥2 words and free of "FILIAÇÃO" |
| OcrHook.MaeAttemptSpec | react2text/src/hooks/useOcr.js:251-260 | a mother's name needs a filiation line and ≥2 candidates; then it is `ChooseMae` of the candidates: the second, extended by the third exactly when the first words of 1 and 3 differ |
| OcrHook.CpfAttemptShape | react2text/src/hooks/useOcr.js:264-287 | a CPF found on a line is xxx.xxx.xxx-xx from exactly 11 digits |
| OcrHook.DataNascAt | react2text/src/hooks/useOcr.js:324 | the DATA NASC scanner captures a DD/MM/YYYY string |
| OcrHook.DnFallback | react2text/src/hooks/useOcr.js:348-351 | the regex fallback date is empty or DD/MM/YYYY |
| OcrHook.DnFallbackTakesMatch | react2text/src/hooks/useOcr.js:348-351 | the fallback date is the leftmost DATA NASC capture, or "" when there is none |
| OcrHook.FindValueOfOne | react2text/src/hooks/useOcr.js:306-314 | findValue on one pattern returns its non-empty capture with whitespace collapsed, else "" |
| OcrHook.BlocoNamesSpec | react2text/src/hooks/useOcr.js:363-376 | every name kept from the filiation block is a collapsed upper-cased block line without digits, all caps, ≥3 long and free of stop words |
| OcrHook.ResolvedCpfShape | react2text/src/hooks/useOcr.js:264-287 | the CPF after the line scan and the regex fallback is empty or xxx.xxx.xxx-xx from 11 digits |
| OcrHook.ResolvedDnShape | react2text/src/hooks/useOcr.js:290-294 | the date after the window scan and the fallback is empty or DD/MM/YYYY |
| OcrHook.ResolvedPlacaNotPlaceholder | react2text/src/hooks/useOcr.js:400-401 | an upper-cased plate can never equal the placeholder, so the placeholder test in the flag condition is decided by emptiness alone |
| OcrHook.FinishShape | react2text/src/hooks/useOcr.js:404-424 | six non-empty data updates in order, naturalidade with its own placeholder, and two more plate flags (true, false) only when a plate was found |
| OcrHook.RunShape | react2text/src/hooks/useOcr.js:96-425 | empty text makes no update; otherwise 6 or 8 updates as above, the two flags present iff a plate resolved |
| OcrHook.FindValue | react2text/src/hooks/useOcr.js:306-314 | the pattern loop returns `FindValueOf` |
| OcrHook.CollectBlocoNames | react2text/src/hooks/useOcr.js:366-376 | the for-of loop with continue and break computes `BlocoNames` |
| OcrHook.ChooseMaeFromBloco | react2text/src/hooks/useOcr.js:377-381 | ≥3 names give the join from the third on, 2 give the second, as `ChooseFromBloco` |
| OcrHook.CompleteMaeFromBloco | react2text/src/hooks/useOcr.js:363-383 | the block fallback computes `MaeBlocoFallback` |
| OcrHook.MaeBlocoFallbackEmpty | react2text/src/hooks/useOcr.js:363-383 | the block fallback is "" for every capture: `findValue` collapses the line breaks, so the block has at most one name and two are needed |
| OcrHook.CompleteMaeFromRegex | react2text/src/hooks/useOcr.js:385-398 | the second fallback computes `MaeRegexFallback` |
| OcrHook.CompleteNome | react2text/src/hooks/useOcr.js:339-342 | a found name is kept, else the regex fallback is used |
| OcrHook.CompleteNaturalidade | react2text/src/hooks/useOcr.js:344-346 | a found naturalidade is kept, else the upper-cased regex fallback is used |
| OcrHook.CompleteDn | react2text/src/hooks/useOcr.js:348-351 | a found date is kept, else the fallback is used |
| OcrHook.CompleteCpf | react2text/src/hooks/useOcr.js:353-361 | a found CPF is kept, else the 11-digit fallback is used |
| OcrHook.CompleteMae | react2text/src/hooks/useOcr.js:363-398 | the found name, else the block fallback, else the regex fallback |
| OcrHook.CompletePlaca | react2text/src/hooks/useOcr.js:400-402 | a found plate is kept, else the fallback is used with its first space removed |
| OcrHook.ExtractAndFillFields | react2text/src/hooks/useOcr.js:96-425 | the line loop, the fallbacks and the defaults compute `Run` |
| AdvancedExtraction.FirstValidPasses | react2text/src/utils/advancedExtraction.js:39-53 | the chosen match passes the key's validator, and none means no match passes |
| AdvancedExtraction.KeyConfidence | react2text/src/utils/advancedExtraction.js:46-47 | confidence is 95 with a validator and 70 without |
| AdvancedExtraction.PatternsOver | react2text/src/utils/advancedExtraction.js:35-54 | a key is present iff it has a passing match, and maps to that match, its confidence and whether it is validated |
| AdvancedExtraction.UniversalPatterns | react2text/src/utils/advancedExtraction.js:20-58 | the same over all pattern keys on the parsed text |
| AdvancedExtraction.ExtractUniversalPatterns | react2text/src/utils/advancedExtraction.js:20-58 | the forEach over the keys computes `UniversalPatterns` |
| AdvancedExtraction.UniversalValuePasses | react2text/src/utils/advancedExtraction.js:39-52 | every stored value passes its validator |
| AdvancedExtraction.UniversalCpfDotted | react2text/src/utils/advancedExtraction.js:25-52 | a stored dotted-CPF value is xxx.xxx.xxx-xx and a valid CPF |
| AdvancedExtraction.CpfMatchesDotted | react2text/src/utils/advancedExtraction.js:25 | every dotted-CPF pattern match has the xxx.xxx.xxx-xx shape |
| AdvancedExtraction.ValidateExtractedValue | react2text/src/utils/advancedExtraction.js:259-286 | a type without a validator gives (true, 60); otherwise isValid is the validator's verdict, with confidence 95 or 30 |
| AdvancedExtraction.PassingRevalidates | react2text/src/utils/advancedExtraction.js:259-286 | a value passing a pattern's validator also passes validateExtractedValue for that key's type |
| AdvancedExtraction.UniversalValuesRevalidate | react2text/src/utils/advancedExtraction.js:20-58 | so every stored universal value revalidates |
| AdvancedExtraction.RegionIndex | react2text/src/utils/advancedExtraction.js:78-83 | band 0 iff MinTop < 300, band 4 iff ≥ 1200, bands 1–3 cover [300b, 300(b+1)) |
| AdvancedExtraction.InRegionMembers | react2text/src/utils/advancedExtraction.js:77-84 | a band holds exactly the input lines whose MinTop falls in it |
| AdvancedExtraction.RegionsPartition | react2text/src/utils/advancedExtraction.js:65-95 | the five bands together are a permutation of the input: every line lands in exactly one |
| AdvancedExtraction.AnalyzeLayout | react2text/src/utils/advancedExtraction.js:65-95 | no layout for empty input; otherwise each region is the input's lines of that band, in input order |
| AdvancedExtraction.FindLineNearY | react2text/src/utils/advancedExtraction.js:104-108 | the first line with \|MinTop − targetY\| ≤ tolerance, and none iff no line is that near |
| AdvancedExtraction.LinesBetweenMembers | react2text/src/utils/advancedExtraction.js:123-127 | the filter keeps exactly the lines with MinTop strictly between the bounds |
| AdvancedExtraction.MentionNoCaseFromFirst | react2text/src/utils/advancedExtraction.js:118-120 | the keyword line found is the first that contains the keyword ignoring case |
| AdvancedExtraction.FindLinesAfterKeywordAbsent | react2text/src/utils/advancedExtraction.js:117-122 | without a keyword line the result is empty |
| AdvancedExtraction.FindLinesAfterKeywordWindow | react2text/src/utils/advancedExtraction.js:117-128 | with one, the result is the lines strictly inside (kwTop, kwTop + maxDistance), in order |
| AdvancedExtraction.Score | react2text/src/utils/advancedExtraction.js:136-150 | a type scores 0 iff none of its keywords occurs and the full 60/60 iff all do |
| AdvancedExtraction.DetectedTypeIsBest | react2text/src/utils/advancedExtraction.js:152-162 | the detected type has a maximal score, the later type winning ties, and its confidence is that score |
| AdvancedExtraction.DetectDocumentType | react2text/src/utils/advancedExtraction.js:135-163 | the scoring loop and the reduce compute `DetectedType` |
| AdvancedExtraction.ReduceBest | react2text/src/utils/advancedExtraction.js:152-154 | the reduce returns the last index of a maximal score |
| AdvancedExtraction.ContextFor | react2text/src/utils/advancedExtraction.js:185-206 | for one keyword: the first data line below its first line, with confidence 85, trimmed and longer than 2, present iff both lines exist |
| AdvancedExtraction.FirstContext | react2text/src/utils/advancedExtraction.js:183-209 | the first keyword of the field that has a context result gives it; none iff no keyword does |
| AdvancedExtraction.FirstContextIsFirstHit | react2text/src/utils/advancedExtraction.js:183-209 | a keyword whose predecessors all miss decides the result |
| AdvancedExtraction.ExtractWithContext | react2text/src/utils/advancedExtraction.js:171-210 | an unknown field gives null; a result names one of the field's keywords, has confidence 85 and a trimmed value longer than 2 |
| AdvancedExtraction.Confidence | react2text/src/utils/advancedExtraction.js:220-238 | the confidence lies in [50, 100] |
| AdvancedExtraction.ConfidenceMonotone | react2text/src/utils/advancedExtraction.js:220-238 | the confidence does not decrease when `validated` or `hasKeyword` becomes true |
| AdvancedExtraction.CalculateConfidence | react2text/src/utils/advancedExtraction.js:220-238 | the accumulating method computes `Confidence`, capped into [50, 100] |
| AdvancedExtraction.BestExtraction | react2text/src/utils/advancedExtraction.js:245-251 | the reduce keeps the first element of maximal confidence |
| AdvancedExtraction.ChooseBestExtraction | react2text/src/utils/advancedExtraction.js:245-251 | null iff the list is empty, else the first element of maximal confidence |
| ValidationWrapper.RecordedIsLast | react2text/src/utils/validationWrapper.js:29-33 | the recorded dictionary has a field iff some call wrote it, holding the last value written |
| ValidationWrapper.CpfStepWrites | react2text/src/utils/validationWrapper.js:63-83 | at most one CPF update: a valid dotted CPF causes none, a valid undotted one is re-emitted formatted with the same digits, a failing one is replaced only by a valid universal CPF |
| ValidationWrapper.PlacaStepWrites | react2text/src/utils/validationWrapper.js:86-101 | at most one plate update; a valid extracted plate is re-emitted formatted |
| ValidationWrapper.RenavamStepWrites | react2text/src/utils/validationWrapper.js:104-118 | at most one RENAVAM update, carrying a valid RENAVAM |
| ValidationWrapper.DataStepWrites | react2text/src/utils/validationWrapper.js:121-135 | at most one date update, carrying a valid date |
| ValidationWrapper.WithValidation | react2text/src/utils/validationWrapper.js:26-44 | the original calls are forwarded unchanged and in order; enhancement updates follow only for an OCR object, computed from the recorded last values; the wrapper throws exactly for `null` (`typeof null` is `object`, then `null.ParsedResults`) |
| ValidationWrapper.FillFieldsRunFields | react2text/src/utils/validationWrapper.js:85-135 | the field extractor writes none of placa, renavam, dataNascimento |
| ValidationWrapper.OnlyUniversalFallback | react2text/src/utils/validationWrapper.js:85-135 | so those three read as empty and only the universal-fallback branches can fire; the recorded CPF is the extractor's |
| ValidationWrapper.EnhanceAfterDataExtraction | react2text/src/utils/validationWrapper.js:49-136 | after the field extractor, enhancement is the CPF step, then a formatted universal plate, RENAVAM and date when present |
| ValidationWrapper.RecordAndForward | react2text/src/utils/validationWrapper.js:29-33 | the wrapped updater records the last value per field and forwards every call |
| ValidationWrapper.EnhanceExtractedData | react2text/src/utils/validationWrapper.js:49-136 | the sequence of conditional updates computes `Enhance` |
| ValidationWrapper.RunWithValidation | react2text/src/utils/validationWrapper.js:26-44 | the wrapped extractor makes the calls of `WithValidation` and throws when it does |
| ValidationWrapper.FieldChecksKeys | react2text/src/utils/validationWrapper.js:156-188 | a result key exists exactly for each non-empty input among cpf, placa, renavam, dataNascimento |
| ValidationWrapper.FieldChecksCpf | react2text/src/utils/validationWrapper.js:159-166 | a valid cpf result carries a formatted valid CPF of shape xxx.xxx.xxx-xx |
| ValidationWrapper.FieldChecksPlaca | react2text/src/utils/validationWrapper.js:168-174 | a valid placa result carries a formatted valid plate |
| ValidationWrapper.FieldChecksKept | react2text/src/utils/validationWrapper.js:176-186 | renavam and dataNascimento results carry the validator's verdict and the value unchanged |
| ValidationWrapper.ValidateExtractedFields | react2text/src/utils/validationWrapper.js:156-188 | building the results key by key computes `FieldChecks` |
| FormState.CheckRequiredSpec | react2text/src/hooks/useFormData.js:40-52 | the check passes iff every listed field is filled; it fails only at an empty text field and throws only at a checkbox value |
| FormState.FirstEmptyFails | react2text/src/hooks/useFormData.js:40-52 | the check stops with a failure at a first field holding "" |
| FormState.InitialNotValid | react2text/src/hooks/useFormData.js:5-26 | the initial record does not pass the check |
| FormState.ResetRequiredInvalidates | react2text/src/hooks/useFormData.js:36-52 | blanking a required field means the form no longer passes |
| FormState.UpdateOtherKeepsVerdict | react2text/src/hooks/useFormData.js:32-52 | updating a field that is not required never changes the verdict |
| FormState.FillKeepsValid | react2text/src/hooks/useFormData.js:32-52 | filling a field with non-blank text keeps a passing form passing |
| FormState.FormData.constructor | react2text/src/hooks/useFormData.js:5-26 | the record starts as the initial form data: text fields "", "not applicable" boxes ticked, opt-in boxes clear |
| FormState.FormData.UpdateField | react2text/src/hooks/useFormData.js:32-34 | the named field takes the value and nothing else changes |
| FormState.FormData.ResetField | react2text/src/hooks/useFormData.js:36-38 | the named field becomes "" and nothing else changes |
| FormState.FormData.ValidateForm | react2text/src/hooks/useFormData.js:40-52 | passes iff all eight required fields are non-blank after trimming; fails only at an empty text field; throws (`None`) only at a checkbox value |
| FormState.FormData.IsFormValid | react2text/src/hooks/useFormData.js:54-56 | answers exactly as validateForm, so it passes iff all required fields are filled |
| Approach.Cleared | react2text/src/components/ApproachData.jsx:65-72 | the listed fields become "" and every other field keeps its value |
| Approach.ChangedSelects | react2text/src/components/ApproachData.jsx:32-73 | ticking "Sim" gives (true, false), ticking "Não se aplica" gives (false, true) and clears the pair's fields, unticking changes nothing |
| Approach.ChangedKeepsExclusive | react2text/src/components/ApproachData.jsx:32-73 | once a pair is exclusive, every change keeps it exclusive |
| Approach.InitialExclusive | react2text/src/hooks/useFormData.js:18-25 | all three pairs start exclusive with "Não se aplica" ticked |
| Approach.MercosulMatch | react2text/src/components/ApproachData.jsx:79 | a Mercosul match has the LLLDLDD shape |
| Approach.LegacyMatchShape | react2text/src/components/ApproachData.jsx:79 | a legacy match is LLLDDDD, or LLL, then a hyphen or whitespace, then DDDD |
| Approach.LegacyNormalized | react2text/src/components/ApproachData.jsx:85-88 | normalising a legacy match gives LLL-DDDD, a valid plate |
| Approach.MercosulNormalized | react2text/src/components/ApproachData.jsx:85-88 | a Mercosul match is kept as it is and is valid |
| Approach.PlateFromTextValid | react2text/src/components/ApproachData.jsx:79-96 | the plate taken from the OCR text (legacy pattern first) is a valid plate |
| Approach.PlateExtractedState | react2text/src/components/ApproachData.jsx:76-102 | empty text changes nothing; a found plate is stored and selects "Sim"; no plate selects "Não se aplica" and clears the vehicle fields |
| Approach.AutoExtractKeepsTypedPlate | react2text/src/components/ApproachData.jsx:105-109 | auto-extraction never runs while a plate is filled in |
| Approach.ApproachData.constructor | react2text/src/components/ApproachData.jsx:12-20 | the visibility flags start from the form's truthiness of veiculoCheck, tornozeleiraCheck and inserirApelido |
| Approach.ApproachData.HandleApelidoChange | react2text/src/components/ApproachData.jsx:32-43 | the form follows the apelido pair rule and only the nickname flag follows the tick |
| Approach.ApproachData.HandleTornozeleiraChange | react2text/src/components/ApproachData.jsx:46-57 | the same rule for the tornozeleira pair and its flag |
| Approach.ApproachData.HandleVeiculoChange | react2text/src/components/ApproachData.jsx:60-73 | the same rule for the vehicle pair and its flag |
| Approach.ApproachData.ExtractPlateFromOCR | react2text/src/components/ApproachData.jsx:76-102 | the form becomes `PlateExtracted`; for non-empty text the vehicle flag shows iff a plate was found, for empty text it is kept; the ankle-bracelet and nickname flags are kept |
| Approach.ApproachData.OnOcrTextChange | react2text/src/components/ApproachData.jsx:105-109 | extraction runs only for non-empty text with an empty plate: then the form becomes `PlateExtracted` and the vehicle flag shows iff a plate was found; otherwise form and flag are kept; the other two flags are always kept |
| Approach.ApproachData.SyncVisibility | react2text/src/components/ApproachData.jsx:112-116 | the three flags are reset from the form |
| CorrectionModal.StartIndex | react2text/src/components/Modals/CorrectionModal.jsx:28-29 | −1 or a position where the trimmed start expression fits in the text |
| CorrectionModal.EndIndex | react2text/src/components/Modals/CorrectionModal.jsx:39-51 | the slice end lies between the end of the start expression and the end of the text |
| CorrectionModal.ExtractBetween | react2text/src/components/Modals/CorrectionModal.jsx:17-64 | an empty OCR text or a blank start expression gives ""; any other result is the "not found" message or a trimmed string (which slice it is: the ExtractBetweenShape, StartAtFirst, ExtractToTextEnd and ExtractToEndMatch rows) |
| CorrectionModal.ExtractBetweenShape | react2text/src/components/Modals/CorrectionModal.jsx:17-64 | the result is "", the "not found" message, or a trimmed substring of the OCR text |
| CorrectionModal.ExtractBlank | react2text/src/components/Modals/CorrectionModal.jsx:18-21 | empty OCR text or a blank start expression gives "" |
| CorrectionModal.ExtractStartMissing | react2text/src/components/Modals/CorrectionModal.jsx:28-34 | a start expression that occurs nowhere, ignoring case, gives "❌ Expressão inicial não encontrada" |
| CorrectionModal.StartAtFirst | react2text/src/components/Modals/CorrectionModal.jsx:28-29 | the slice begins at the first case-insensitive occurrence of the start expression |
| CorrectionModal.ExtractToTextEnd | react2text/src/components/Modals/CorrectionModal.jsx:39-59 | with no end expression the result is the trimmed text from that occurrence to the end |
| CorrectionModal.ExtractEndMissing | react2text/src/components/Modals/CorrectionModal.jsx:41-59 | an end expression absent after the start also runs to the end of the text: the warning is overwritten |
| CorrectionModal.ExtractToEndMatch | react2text/src/components/Modals/CorrectionModal.jsx:39-59 | otherwise the result is the trimmed original-case slice up to and including the first end match after the start expression |
| CorrectionModal.EndAtMatch | react2text/src/components/Modals/CorrectionModal.jsx:41-45 | the end search starts after the start expression and stops just past the first match |
| CorrectionModal.Chosen | react2text/src/components/Modals/CorrectionModal.jsx:77-81 | the extraction when it is neither empty nor the "not found" message, else the typed value |
| CorrectionModal.AppliedExtractionIsText | react2text/src/components/Modals/CorrectionModal.jsx:57-59 | a usable extraction is already trimmed and is a substring of the OCR text |
| CorrectionModal.UseExtractedKeepsApply | react2text/src/components/Modals/CorrectionModal.jsx:76-95 | copying the extraction into the typed value never changes what applying passes on |
| CorrectionModal.Dialog.constructor | react2text/src/components/Modals/CorrectionModal.jsx:11-14 | the typed value starts from the current value; the expressions and the extraction start empty |
| CorrectionModal.Dialog.SetStartExpression | react2text/src/components/Modals/CorrectionModal.jsx:67-69 | changing the start expression re-runs the extraction |
| CorrectionModal.Dialog.SetEndExpression | react2text/src/components/Modals/CorrectionModal.jsx:67-69 | changing the end expression re-runs the extraction |
| CorrectionModal.Dialog.SetManualValue | react2text/src/components/Modals/CorrectionModal.jsx:72-74 | a new typed or current value changes only the typed value |
| CorrectionModal.Dialog.HandleApply | react2text/src/components/Modals/CorrectionModal.jsx:76-86 | onApply is called iff the chosen value is not blank, with that value trimmed |
| CorrectionModal.EnabledApplies | react2text/src/components/Modals/CorrectionModal.jsx:76-203 | while the apply button is enabled (typed value not blank, line 203) applying always passes a non-blank value on |
| CorrectionModal.DisabledButApplicable | react2text/src/components/Modals/CorrectionModal.jsx:76-203 | the converse fails: a usable extraction with a blank typed value disables the button (line 203), yet handleApply would pass the extraction on |
| CorrectionModal.Dialog.HandleUseExtracted | react2text/src/components/Modals/CorrectionModal.jsx:88-95 | a usable extraction replaces the typed value; otherwise nothing changes |
| ActionsReport.Display | react2text/src/components/ActionsSection.jsx:19-28 | a truthy field is shown verbatim, any other as "Não informado" |
| ActionsReport.ApelidoFinal | react2text/src/components/ActionsSection.jsx:13-15 | "Não se aplica" when naoAplicaApelido is set, else the nickname or "Não informado" |
| ActionsReport.FieldLinesInOrder | react2text/src/components/ActionsSection.jsx:17-29 | lines 3–12 of the report are the ten labels in their fixed order, each followed by its displayed value |
| ActionsReport.TornozeleiraObservation | react2text/src/components/ActionsSection.jsx:31-35 | the tornozeleira line shows the number only when tornozeleiraCheck is set, else "Não se aplica." |
| ActionsReport.VehicleObservation | react2text/src/components/ActionsSection.jsx:37-43 | the report has 18 lines with the Placa/Cor/Modelo block iff veiculoCheck is set, else 15 ending in "Veículo: Não se aplica." |
| ActionsReport.RawSplitsIntoLines | react2text/src/components/ActionsSection.jsx:17-43 | for values without line breaks, splitting the untrimmed report on newlines gives exactly the report lines and a final "" |
| ActionsReport.ReportKeepsHead | react2text/src/components/ActionsSection.jsx:17-45 | the trimmed report begins with the banner, keeps every line but the last intact, and is trimmed at both ends |
| ActionsReport.GenerateText | react2text/src/components/ActionsSection.jsx:17-45 | the report text is trimmed at both ends; what its lines are: the FieldLinesInOrder, TornozeleiraObservation, VehicleObservation and ReportKeepsHead rows |

## Left out

- The network OCR calls, timeouts, image handling, clipboard, `navigator`, service-worker code and `window.open` are I/O. The async `processDocument`/`processPastedText` plumbing is left out too.
- The JSX markup and presentational components are left out, except the disabled condition of the apply button (`CorrectionModal.Dialog.ApplyEnabled`).
  - The "Usar este texto" button's own disabled test (the extraction contains ❌ or ⚠️) is not modelled, because `handleUseExtracted` has its own guard.
  - `onClose` and the `field` prop are not modelled.
- `console.log` telemetry is left out. So is the percentage confidence log of `validationWrapper.js:138-149`, and `detectDocumentType`'s call from the wrapper, which only feeds that log.
- Floating point is not modelled: confidences are integer hundredths and document-type scores are sixtieths.
- The six backtracking regular expressions of `useOcr.js` are an `engine` parameter. Every property that mentions them holds for any engine; what those patterns match is not modelled.
- `toUpperCase`/`toLowerCase` are length-preserving maps over ASCII and Latin-1. Full Unicode case mapping (for example ß → SS) is not modelled.
- The accented ranges `À-Ü` and `À-Ú` are fixed code-point ranges.
- `updateField`, `onFieldChange` and `onApply` are callbacks. The extractors return their calls as a sequence of updates, and `HandleApply` returns the value passed to `onApply`.
  - React's asynchronous state updates and effect ordering are not modelled.
  - `SetStartExpression`/`SetEndExpression` apply the extraction effect at once.
- `withValidation` is modelled though the app does not wire it in anywhere.
- A checkbox value (a `Flag`) stored under cpf, placa, renavam or dataNascimento is read by the wrapper as absent. The source would call string methods on it and throw.
- `CorrectionModal.ExtractBetween`: the `try/catch` returning "❌ Erro na extração" is not modelled, because nothing in the computation can throw on strings. A missing `ocrText` is modelled as "".
- `ActionsReport.RawSplitsIntoLines` requires field values without line breaks. A value containing a newline splits into more lines, which is true of the source too.
- `FormState.FormData.ValidateForm` returns `None` where `trim` would be called on a checkbox value and throw.
- `DataExtraction.ExtractAndFillFields` takes its input as a datatype: `undefined`, `null`, pasted text, or an OCR object. The JavaScript `typeof` test on arbitrary values (numbers, objects without `ParsedResults`) is not modelled beyond that.
- Names looked up in object literals are compared as plain strings, so names that reach `Object.prototype` are not modelled. These members treat "constructor", "toString", "__proto__" and the like as unknown names:
  - `BrazilianValidators.KindOf`: the source's `validators[type]` would throw;
  - `AdvancedExtraction.FieldValidator`: the source would give confidence 95, or throw for "__proto__";
  - `AdvancedExtraction.ContextKeywords`: the source's `for…of` would throw;
  - `AdvancedExtraction.TypeBonus`: the source's score would be NaN.
- Strings are sequences of Unicode scalar values, while JavaScript's `.length` counts UTF-16 code units. Text outside the Basic Multilingual Plane (emoji, for example) has a different length, and the model does not capture that. This affects the length tests in `AdvancedExtraction.Confidence` (length > 2), `DataExtraction.AcceptableCity` (`cityPart.length`) and the `trim().length > 2` line tests (`DataExtraction.IsPlaceLine` and the name-line tests).
- `looksLikeName` in `useOcr.js` (lines 134-143) is never called, so it is not modelled.
- The App-level `resetAllFields` is a list of `updateField` calls. It is covered by `FormState.FormData.UpdateField`.
