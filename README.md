# Portfolio site logic, modelled in Dafny

This project models the computational core of a personal portfolio web
site written in browser JavaScript, and proves what that core promises.

- **Salary tax engine** (`js/tax-pakistan.js`), module `TaxPakistan` in
  `tax.dfy`. It takes an already-parsed record of salary figures and runs one
  pass:
  - salary plus perquisites (medical allowance split, car, shares, housing,
    employer loan);
  - zakat and education deductions;
  - a six-bracket slab tax;
  - average-rate investment credits with caps;
  - teacher and senior-citizen rebates, where the larger one wins;
  - a flat 2.5% block tax.

  Also modelled: the numbers of the audit panel (monthly amounts, the
  cash-income guard, the percent clamp) and the badge tier.
- **Financial-ratio analyst** (`js/ai-analyst.js`), module `AiAnalyst` in
  `analyst.dfy`. It refuses empty input, computes margin and current ratio
  with guarded division, and walks a fixed rule tree to a risk level, an
  insight and the text shown.
- **Article parser** (`js/articles.js`, `parseArticle`), module `Articles` in
  `articles.dfy`. A method loops over the lines the way the source's
  `forEach` does. Its loop invariants tie the four accumulators (title, cover
  image, preview, body HTML) to specification functions over the lines read so
  far. The lazy regular expressions are written out as scanning functions.
- **Terminal** (`js/terminal.js`), module `Terminal` in `terminal.dfy`. A class
  holds the transcript as a sequence of lines and the input field's text. The
  Enter handler echoes the input, then either clears the transcript, answers a
  known command, reports an unknown one, or does nothing more for blank input.
- **Page helpers** (`js/main.js`), in three modules:
  - `Colors` (`colors.dfy`): `hexToRGB` and `interpolateColor`, with
    JavaScript's `%` and `Math.round` written out;
  - `Particles` (`particles.dfy`): the loader particle's `reset`/`update`
    life cycle and edge wrap, and the page particles' movement, zone wrap and
    colour-index cycle, as classes whose methods update their fields;
  - `SiteChrome` (`sitechrome.dfy`): the theme manager and the navigation
    menu's open/closed flag, as classes.

The shared JavaScript string helpers live in `JsText` (`jstext.dfy`):
`trim` with JavaScript's white-space set, `toLowerCase` on ASCII,
`startsWith` and `includes`. The `Option` type lives in `Wrappers`
(`wrappers.dfy`).

Money and ratios are exact `real`s. Random draws, the canvas size, the
trigonometric movement offsets, the clock text and the stored theme are
parameters.

## Model

| member | source | states |
|---|---|---|
| TaxPakistan.SplitMedical | js/tax-pakistan.js:86-94 | with a medical facility the whole allowance is taxable; otherwise at most a tenth of basic is exempt, exempt is the smaller of allowance and that limit, and exempt + taxable = allowance |
| TaxPakistan.CarBenefit | js/tax-pakistan.js:99-104 | no benefit unless cost > 0; then it is between 5% and 10% of cost, exactly 10% iff the car type is `full`, and exactly 5% for any other type |
| TaxPakistan.ShareBenefit | js/tax-pakistan.js:107-112 | the benefit is non-negative, at least fmv − cost, and either 0 or fmv − cost |
| TaxPakistan.HousingBenefit | js/tax-pakistan.js:115-119 | 45% of basic when housing is provided, else 0 |
| TaxPakistan.LoanBenefit | js/tax-pakistan.js:122-130 | 0 when the principal is at most 1,000,000 or the rate charged is at least 10; positive otherwise; never above 10% of the principal for a non-negative rate |
| TaxPakistan.LoanBenefitIsInterestSaved | js/tax-pakistan.js:124-129 | above the threshold and below the benchmark, benefit × 100 = principal × (10 − rate) |
| TaxPakistan.EducationDeduction | js/tax-pakistan.js:143-155 | 0 when income after zakat is at least 1,500,000 or fees are not positive; otherwise the least of 5% of fees, 25% of that income and 60,000 per child |
| TaxPakistan.Bracket | js/tax-pakistan.js:230-236 | the slab index is the number of thresholds the income exceeds, and the income is at most the next threshold |
| TaxPakistan.SlabTax | js/tax-pakistan.js:230-237 | no tax up to 600,000; never negative; never above 35% of the income |
| TaxPakistan.SlabTaxByBracket | js/tax-pakistan.js:230-237 | the slab tax is the bracket's base plus the bracket's rate on the excess over its floor |
| TaxPakistan.SlabTaxContinuous | js/tax-pakistan.js:232-236 | at each threshold the tax equals the next bracket's base (30,000 / 180,000 / 430,000 / 700,000), so adjacent brackets meet |
| TaxPakistan.SlabTaxMonotone | js/tax-pakistan.js:230-237 | the slab tax never decreases with income and grows by at most 35% of the increase |
| TaxPakistan.AverageRate | js/tax-pakistan.js:174 | the average rate is 0 when taxable income is not positive, and non-negative for non-negative tax |
| TaxPakistan.AverageRateRecoversTax | js/tax-pakistan.js:174 | average rate × taxable income = gross tax |
| TaxPakistan.InvestmentCredits | js/tax-pakistan.js:177-198 | each eligible amount is the smaller of the contribution and its cap (30% / 20% / 50% of taxable income); no credit without taxable income |
| TaxPakistan.CreditsCapped | js/tax-pakistan.js:180-195 | the eligible amounts never exceed their caps and reach them when the contribution does |
| TaxPakistan.ScaledByAverageRate | js/tax-pakistan.js:182-196 | an eligible amount up to taxable income earns a credit between 0 and the gross tax |
| TaxPakistan.CreditsTotal | js/tax-pakistan.js:182-198 | the total credit is the sum of the eligible amounts times the average rate |
| TaxPakistan.CreditsWithinGrossTax | js/tax-pakistan.js:174-200 | with non-negative contributions the total credit lies between 0 and the gross slab tax |
| TaxPakistan.RebateFraction | js/tax-pakistan.js:205-219 | the rebate share is 0, 25% or 50%; 50% iff senior with taxable income at most 1,000,000; 25% iff teacher and not that |
| TaxPakistan.Rebates | js/tax-pakistan.js:205-219 | an eligible senior gets half the tax after credits; otherwise a teacher gets a quarter and others nothing; never above half |
| TaxPakistan.RebatesAreFraction | js/tax-pakistan.js:205-219 | the rebate is the tax after credits times the rebate share |
| TaxPakistan.RebatesDoNotStack | js/tax-pakistan.js:213-218 | a teacher who is also an eligible senior gets exactly 50%, never 75% |
| TaxPakistan.TotalSalaryIncome | js/tax-pakistan.js:132 | salary income is basic + bonus + other + the medical allowance less its exempt part + the car, share, housing and loan perquisites; for a non-negative basic it is at least the cash pay plus the taxable medical part |
| TaxPakistan.CalculateTax | js/tax-pakistan.js:71-222 | the salary income is the sum above; taxable income = max(0, salary income − deductions) and is non-negative; gross tax is the slab tax of it; credits and rebates come from the rules above; final liability = max(0, tax after credits − rebates) + 2.5% of block income, so it is at least the block tax |
| TaxPakistan.TaxFreeSlabOwesNothing | js/tax-pakistan.js:163-222 | taxable income up to 600,000 and no block income mean nothing is owed |
| TaxPakistan.AllZeroOwesNothing | js/tax-pakistan.js:71-222 | all-zero input gives zero income and zero liability |
| TaxPakistan.NoCreditsNoRebates | js/tax-pakistan.js:174-222 | with no investments and no status, the liability is the slab tax plus the block tax |
| TaxPakistan.BasicOnlySalary | js/tax-pakistan.js:86-132 | a form holding only a non-negative basic salary, without facilities, has that salary as its salary income |
| TaxPakistan.PlainBasicIncome | js/tax-pakistan.js:77-158 | a salary of basic pay alone, without facilities, is taxed on exactly that basic pay |
| TaxPakistan.BasicAtSecondThreshold | js/tax-pakistan.js:232 | a basic salary of 1,200,000 alone owes exactly 30,000 |
| TaxPakistan.TaxableAfterEducationMonotone | js/tax-pakistan.js:143-158 | income left after the education deduction never decreases as income rises, even across the 1,500,000 cut-off |
| TaxPakistan.TotalSalaryMonotoneInBasic | js/tax-pakistan.js:86-132 | a larger basic salary never lowers the total salary income |
| TaxPakistan.TaxableIncomeMonotoneInBasic | js/tax-pakistan.js:86-158 | a larger basic salary never lowers taxable income |
| TaxPakistan.SmallLoanNoBenefit | js/tax-pakistan.js:124 | a loan up to 1,000,000 adds nothing to the salary income, whatever its rate |
| TaxPakistan.AuditNumbers | js/tax-pakistan.js:241-253 | cash income is the cash total when positive and 1 otherwise; monthly figures are a twelfth; tax percent × cash income = tax × 100; net percent is 100 − tax percent, clamped at 0 |
| TaxPakistan.BadgeInfo | js/tax-pakistan.js:363-370 | the badge is the table entry of the income's slab bracket, and it is green iff income is at most 1,200,000 |
| AiAnalyst.OrZero | js/ai-analyst.js:21-24 | an unparsable field reads as 0, a parsed one as its value |
| AiAnalyst.Margin | js/ai-analyst.js:55 | margin × revenue = (revenue − expenses) × 100 when revenue is positive, else 0 |
| AiAnalyst.CurrentRatio | js/ai-analyst.js:56 | ratio × liabilities = assets when liabilities are positive, else 0 |
| AiAnalyst.MarginSentence | js/ai-analyst.js:63-70 | exactly one margin sentence: the warning iff margin < 5, strong efficiency iff > 20, stable iff between |
| AiAnalyst.RatioSentence | js/ai-analyst.js:72-79 | exactly one liquidity sentence: the alert iff ratio < 1, inefficiency iff > 2, optimal iff between |
| AiAnalyst.Risk | js/ai-analyst.js:60-79 | risk is `HIGH` or `LOW`, and `HIGH` iff margin < 5 or ratio < 1 |
| AiAnalyst.Display | js/ai-analyst.js:84 | the text is `[RISK LEVEL: `, the risk, `] // ` and the insight, in that order |
| AiAnalyst.Analyze | js/ai-analyst.js:21-84 | refused, with the alert text, iff revenue and assets are both 0; otherwise the report holds the margin, ratio, risk, insight (margin sentence then ratio sentence) and display text |
| AiAnalyst.InsightShape | js/ai-analyst.js:63-79 | every insight is one of the three margin sentences followed by one of the three liquidity sentences |
| AiAnalyst.NoLiabilitiesIsHighRisk | js/ai-analyst.js:56-79 | with no liabilities the risk is `HIGH` and the insight ends with the liquidity alert |
| AiAnalyst.NoRevenueIsLowMargin | js/ai-analyst.js:55-70 | with no revenue the risk is `HIGH` and the insight opens with the margin warning |
| JsText.TrimStart | js/articles.js:38 | drops exactly the leading white space and keeps the rest as a suffix |
| JsText.TrimEnd | js/articles.js:38 | drops exactly the trailing white space and keeps the rest as a prefix |
| JsText.Trim | js/articles.js:38 | the result occurs in the input, is no longer, and neither starts nor ends with white space |
| JsText.TrimCutsOnlySpace | js/articles.js:38 | the result is the slice of the input between a prefix and a suffix made only of white space |
| JsText.TrimKeepsTrimmed | js/articles.js:38 | a string with no white space at either end is its own trim |
| JsText.TrimIdempotent | js/terminal.js:55 | trimming twice is trimming once |
| JsText.ContainsIff | js/articles.js:41 | `includes` holds iff the pattern occurs at some position |
| JsText.LowerChar | js/terminal.js:55 | an upper-case ASCII letter maps to its lower case; any other character is kept |
| JsText.ToLower | js/terminal.js:55 | same length, every character lowered |
| JsText.ToLowerIdempotent | js/terminal.js:55 | lowering twice is lowering once |
| Articles.SplitLines | js/articles.js:26 | at least one piece, none holding a newline |
| Articles.JoinSplitLines | js/articles.js:26 | joining the pieces with newlines gives back the text |
| Articles.SplitLinesCons | js/articles.js:26 | a newline-free prefix and a newline split off as the first piece |
| Articles.SplitLinesSingle | js/articles.js:26 | text without a newline is one piece |
| Articles.SplitJoinLines | js/articles.js:26 | splitting newline-free pieces joined by newlines gives back the pieces |
| Articles.ScanTo | js/articles.js:43 | a found position holds the closing character, and nothing before it on the line does |
| Articles.ScanToFinds | js/articles.js:43 | the first closing character on the line is found |
| Articles.LinkTail | js/articles.js:43 | a match is `](`…`)` with no line break before it and no `)` inside the target |
| Articles.LinkTailFinds | js/articles.js:43 | when the label holds no `]`, the lazy `](…)` match is the first `]`, followed by `(`, and the first `)` after it |
| Articles.LinkTailFindsFirst | js/articles.js:53 | the lazy first group runs over any `]` that does not open a closed `(…)`, and the match ends at the first one that does |
| Articles.LinkLabelSpansBracket | js/articles.js:53 | `[a]b](c)` becomes the link to `c` labelled `a]b` |
| Articles.ImageMatchFrom | js/articles.js:43 | a match's text and URL, with the five syntax characters, fit in what is left of the line |
| Articles.ImageMatchOccurs | js/articles.js:41-44 | a match implies the line contains `![` and `](` |
| Articles.ImageMatchContains | js/articles.js:41-44 | a matching line passes the parser's `includes` guards |
| Articles.ImageMatchRoundTrip | js/articles.js:43 | `![alt](url)` with plain alt text and URL matches with exactly that alt text and URL |
| Articles.ReplaceBoldFrom | js/articles.js:51 | replacing bold markup from a position on never shortens what is left of the line |
| Articles.ReplaceBold | js/articles.js:51 | the line with bold markup replaced is no shorter than the line |
| Articles.ReplaceBoldNoStar | js/articles.js:51 | text without `*` is left unchanged |
| Articles.ReplaceBoldRoundTrip | js/articles.js:51 | `*x*` becomes `<strong>x</strong>` |
| Articles.LinkHtml | js/articles.js:53 | the anchor is `<a href="`, the target, `" target="_blank">`, the label and `</a>`, in that order |
| Articles.ReplaceLinksFrom | js/articles.js:53 | replacing link markup from a position on never shortens what is left of the line |
| Articles.ReplaceLinks | js/articles.js:53 | the line with link markup replaced is no shorter than the line |
| Articles.ReplaceLinksNoBracket | js/articles.js:53 | text without `[` is left unchanged |
| Articles.ReplaceLinksRoundTrip | js/articles.js:53 | `[t](u)` becomes the link to `u` labelled `t` |
| Articles.ImageUrlOf | js/articles.js:41-44 | a line offers a URL only if it starts with `![` and the image pattern matches it, and then the URL is the match's |
| Articles.LineHtml | js/articles.js:55-62 | an empty line adds nothing, and any HTML a line adds opens with `<` and closes with `>` |
| Articles.ImageUrlOfMatch | js/articles.js:41-44 | a line offers an image URL only when it starts with `![` and matches, and then it is the match's URL |
| Articles.LineHtmlCases | js/articles.js:49-62 | empty and `# ` lines add nothing; `## ` lines become `<h3>` of the text after three characters; image lines become `<img>` when they match and nothing otherwise; paragraph lines become `<p>` with bold and links replaced |
| Articles.LastTitleWins | js/articles.js:39-40 | the title is the text after `# ` on the last such line |
| Articles.NoTitleLineKeepsDefault | js/articles.js:27 | without a `# ` line the title stays `Untitled Article` |
| Articles.FirstImageAppend | js/articles.js:41-44 | a cover image, once found, is kept whatever lines follow |
| Articles.ImageIsFirstUrl | js/articles.js:41-44 | the cover image is the URL of the first line that offers one |
| Articles.FirstPreviewAppend | js/articles.js:45-46 | a preview, once found, is kept whatever lines follow |
| Articles.PreviewIsFirstParagraph | js/articles.js:45-46 | the preview is the first paragraph line, never a heading or an image line |
| Articles.BodyHtmlAppend | js/articles.js:55-62 | the body of a text is the body of its first part followed by the body of the rest |
| Articles.ScanLine | js/articles.js:38-62 | one line sets the title only on `# `; sets the image only when none is set yet; sets the preview only when none is set and the line is a paragraph; appends the line's HTML |
| Articles.ParseArticle | js/articles.js:25-63 | the title, image, preview and body are the last `# ` title, the first offered URL, the first paragraph and the concatenated line HTML of the split text |
| Articles.ScanLineExtendsPrefix | js/articles.js:37-63 | one callback step turns the accumulators for the first i lines into those for the first i + 1 |
| Articles.LastTitleStep | js/articles.js:39-40 | one more line changes the title only if it is a `# ` line |
| Articles.FirstImageStep | js/articles.js:41-44 | one more line keeps a found image, or takes the URL the line offers |
| Articles.FirstPreviewStep | js/articles.js:45-46 | one more line keeps a found preview, or takes the line if it is a paragraph |
| Articles.BodyHtmlStep | js/articles.js:55-62 | one more line appends its HTML |
| Articles.CardPreview | js/articles.js:72 | the card shows a prefix of the preview of length min(length, 120), then `...` |
| Terminal.Commands | js/terminal.js:44-50 | the table's keys are exactly help, about, skills, contact and date; date maps to the clock text |
| Terminal.NotFound | js/terminal.js:80 | the error text is `Command not found: `, the command, then `. Type 'help' for assistance.` |
| Terminal.IsKnown | js/terminal.js:71 | a known command is a key of the table, and a key is known iff its text is non-empty |
| Terminal.Normalize | js/terminal.js:55 | the command is no longer than the input and holds no upper-case ASCII letter |
| Terminal.NormalizeIdempotent | js/terminal.js:55 | normalising twice is normalising once |
| Terminal.Reply | js/terminal.js:71-82 | at most one reply line: a known command's entry, the not-found error for other non-blank input, nothing for blank input |
| Terminal.AfterEnter | js/terminal.js:55-82 | the transcript is empty after Enter iff the normalised command is `clear`; otherwise it grows by one or two lines |
| Terminal.Term.constructor | js/terminal.js:18-20 | the transcript starts with the two welcome lines and an empty input |
| Terminal.Term.Type | js/terminal.js:23 | typing sets the input text and leaves the transcript alone |
| Terminal.Term.ClearLines | js/terminal.js:68-69 | removing every line one by one leaves an empty transcript |
| Terminal.Term.KeyDown | js/terminal.js:53-87 | keys other than Enter change nothing; Enter empties the input and updates the transcript as the Enter rules say |
| Terminal.EnterEchoesInput | js/terminal.js:60-63 | unless the command is `clear`, Enter keeps the old transcript, appends the history line with the original text, and adds at most one more line |
| Terminal.ClearEmptiesTranscript | js/terminal.js:66-69 | `clear` removes every line, including the welcome lines and the history line just added |
| Terminal.KnownCommandResponds | js/terminal.js:71-75 | a known command adds its history line and exactly one response holding its entry |
| Terminal.TableCommandsAreKnown | js/terminal.js:44-71 | help, about, skills and contact are known; date is known iff the clock text is non-empty; clear is not a table command |
| Terminal.UnknownCommandFails | js/terminal.js:76-82 | an unknown non-blank command adds its history line and the not-found error naming it |
| Terminal.OnlyTableCommandsAreKnown | js/terminal.js:44-71 | no name outside the table is a known command |
| Terminal.BlankInputOnlyEchoes | js/terminal.js:76 | blank input adds only its history line |
| Colors.HexDigitValue | js/main.js:542 | a hex digit's value is below 16 |
| Colors.HexDigitChar | js/main.js:542 | the inverse of the hex-digit reading, written only for the round trip (the source has no writer): a value below 16 is written as a hex digit that reads back as that value |
| Colors.HexByte | js/main.js:542 | two hex digits read as a byte in 0..255 |
| Colors.HexToRgb | js/main.js:541-543 | a well-formed `#rrggbb` colour has every component in 0..255 |
| Colors.RgbToHex | js/main.js:541-543 | the inverse of `hexToRGB`, written only for the round trip (the source has no writer): a byte colour is written as a well-formed `#rrggbb` colour |
| Colors.HexRoundTrip | js/main.js:541-543 | reading back a written colour gives the colour |
| Colors.ByteHex | js/main.js:542 | the inverse of reading two hex digits, written only for the round trip (the source has no writer): a byte is written as two hex digits |
| Colors.PaletteWellFormed | js/main.js:18-21 | the palette has ten entries, all well-formed colours |
| Colors.PaletteColor | js/main.js:549 | every palette colour has byte components |
| Colors.JsIntRem | js/main.js:546-547 | JavaScript `%` on integers: for a non-negative dividend it is the remainder in [0, n); otherwise it lies in (−n, 0] |
| Colors.Trunc | js/main.js:548 | truncation toward zero is the floor for non-negative numbers and minus the floor of the negation otherwise |
| Colors.JsRealRem | js/main.js:548 | JavaScript `%` on numbers by a positive m: the result differs from the dividend by a whole multiple of m, and lies in [0, m) for a non-negative dividend and in (−m, 0] otherwise; together these fix it as x − m × trunc(x / m) |
| Colors.RemTenWraps | js/main.js:450 | `x % 10` for x in [10, 20) is x − 10 |
| Colors.FractionalPart | js/main.js:548 | `idx % 1` for non-negative idx is its fractional part, in [0, 1) |
| Colors.Round | js/main.js:550 | `Math.round` gives the integer within half of x, halves rounded up |
| Colors.Blend | js/main.js:550 | the blended component is within half of the exact interpolation a + (b − a) × t |
| Colors.BlendBetween | js/main.js:550 | a blend by t in [0, 1) lies between the two components, and t = 0 gives the first |
| Colors.PaletteIndex | js/main.js:546 | `Math.floor(idx) % 10` is a valid palette index |
| Colors.Mix | js/main.js:547-550 | the mix of colour i toward colour (i + 1) mod 10 has byte components, each between the two colours' components and within half of a + (b − a) × t, and is colour i when t = 0 |
| Colors.InterpolateColor | js/main.js:545-551 | the interpolated colour has byte components, each between those of palette colours i and (i + 1) mod 10 and within half of the blend by the fractional part of idx; at a whole index it is colour i |
| Colors.InterpolateAtWholeIndex | js/main.js:545-551 | at a whole index n the colour is palette colour n mod 10 |
| Colors.InterpolatePeriodic | js/main.js:545-551 | adding 10 to the index gives the same colour |
| Colors.NextColorIndex | js/main.js:450 | the next colour index lies in [0, 10); it is the plain sum while that stays below 10, and the sum − 10 when the sum is in [10, 20) |
| Particles.Pick | js/main.js:75-76 | a random pick from a list is an element of that list |
| Particles.Scaled | js/main.js:70-71 | a random draw scaled by n lies in [0, n] |
| Particles.Wrap | js/main.js:102-105 | the two wrap tests leave a value in range unchanged, send one below the range to its top and one above to its bottom |
| Particles.FadedOpacity | js/main.js:90-95 | fading in, opacity = life / 20 × 0.4; fading out over the last 20 frames, opacity × 50 = maxLife − life; in mid-life it is unchanged; it stays in [0, 0.4] |
| Particles.Particle.constructor | js/main.js:63-67 | a new particle has every field Reset gives it (position, size, speed, colour, shape, rotation, spin, limit, opacity 0), except life, which is a random point of its first 100 frames |
| Particles.Particle.Reset | js/main.js:69-82 | every field takes its random starting value: life 0, opacity 0, maxLife in [100, 150), position within the canvas |
| Particles.Particle.Update | js/main.js:84-106 | life advances by one and opacity fades, with size, speed, colour, shape and spin unchanged; or, when life reaches maxLife, every field takes its reset value; position moves and wraps into [−20, w + 20] × [−20, h + 20]; life stays below maxLife |
| Particles.PageParticle.constructor | js/main.js:390-416 | a page particle starts at x = draw × width and y = top + draw × height inside its section's zone, with colour index draw × 10, colour speed 0.012 + draw × 0.015, angle draw × 2π and angle speed (draw − 0.5) × 0.002 |
| Particles.PageParticle.Step | js/main.js:436-451 | the particle moves and wraps within [−20, width + 20] and its zone ± 20; it is drawn iff it is in view, and only then does its colour index advance (staying in [0, 10)) and its colour get interpolated |
| Particles.DrawPage | js/main.js:431-451 | after a frame every page particle is still inside its zone and within [−20, width + 20] |
| SiteChrome.CurrentTheme | js/main.js:206-208 | a missing or empty theme attribute reads as `light` |
| SiteChrome.Toggled | js/main.js:225-227 | the toggle gives `dark` iff the theme is `light`, and `light` otherwise |
| SiteChrome.ToggleTwiceRestores | js/main.js:225-227 | toggling a light or dark theme twice restores it |
| SiteChrome.IconFor | js/main.js:210-213 | the moon icon shows iff the theme is `light` |
| SiteChrome.MetaColorFor | js/main.js:219-220 | the meta colour is `#0c0e1a` exactly for `dark` |
| SiteChrome.ThemeManager.constructor | js/main.js:201-213 | the icon matches the initial theme |
| SiteChrome.ThemeManager.SetTheme | js/main.js:215-221 | setting a theme writes the attribute and the stored value, updates the icon and sets the meta colour |
| SiteChrome.ThemeManager.Toggle | js/main.js:225-227 | the toggle switches light to dark and anything else to light, writes that theme to the attribute and to storage, and sets its meta colour (dark exactly when switching to dark, white otherwise) |
| SiteChrome.ThemeManager.SystemSchemeChanged | js/main.js:230-232 | with a non-empty stored theme nothing changes; with none stored, or an empty one, the system's scheme becomes the attribute and the stored theme, with its icon and meta colour |
| SiteChrome.NavMenu.constructor | js/main.js:244 | the menu starts closed |
| SiteChrome.NavMenu.CloseMenu | js/main.js:246-251 | closing leaves the menu closed, with the button, links and page scroll agreeing |
| SiteChrome.NavMenu.Toggle | js/main.js:253-259 | the toggle button flips the open flag |
| SiteChrome.NavMenu.LinkClicked | js/main.js:261-270 | following a menu link closes the menu |
| SiteChrome.NavMenu.DocumentClicked | js/main.js:272 | a click outside the nav closes an open menu; a click inside leaves it |
| SiteChrome.NavMenu.KeyPressed | js/main.js:273 | Escape closes an open menu; any other key, or Escape on a closed menu, changes nothing |

## Left out

- `js/simulator.js` is not part of this model. It is floating-point compound
  interest and bar heights.
- DOM wiring is not modelled: element lookups, event listeners, `innerHTML`
  templates, CSS classes, the article card and modal, `wrapWords`, the loader
  title, the audit panel's HTML and chart, and `location.reload`. Elements the
  handlers test for absence (toggle button, links, nav, meta tag) are taken as
  present.
- Timing is not modelled: `setTimeout`, `requestAnimationFrame`,
  `IntersectionObserver`, the counters' easing, and scrolling, including
  `onScroll` and the smooth scroll of menu links.
- The terminal's `typeWriter` delay is not modelled. A response is appended
  whole.
- Canvas drawing, particle size, alpha and glow, and the trigonometric
  movement are left out. The movement offsets `dx`, `dy` are parameters of
  `Particles.PageParticle.Step`.
- `Math.random` draws are parameters, each assumed to lie in [0, 1).
  `Date().toString()` is the `date` parameter of `Terminal.Commands`.
  `localStorage` and the attribute are `Option` fields, and `matchMedia`'s
  answer is a parameter.
- `fetch` of the article manifest and files is left out. The parser takes the
  text.
- Text-to-number parsing (`parseFloat`) and number formatting (`toFixed`,
  `toLocaleString`) are left out. Inputs are already-parsed reals, and
  `AiAnalyst.OrZero` models `|| 0` on the parse result.
- Arithmetic is exact `real` arithmetic rather than IEEE-754 doubles, so
  rounding error and `NaN` are not modelled.
- The tax input `termination` is read but never used by the source, so it is
  not in the input record.
- `parseInt` on malformed hex, which gives `NaN`, is not modelled:
  `Colors.HexToRgb` requires a well-formed `#rrggbb`. All palette entries are
  well formed.
- Strings are sequences of code points, not UTF-16 units. `toLowerCase`
  lowers ASCII letters only.
- The JavaScript prototype chain in `commands[cmd]` is not modelled. For
  example, `constructor` would be truthy in the source. The table is a finite
  map, and a command is known when it is a key with non-empty text.
- HTML escaping is not modelled; the source does none either.
- Focus moves are left out. These are `input.focus()` and
  `toggle.focus()`.
- Particles.DrawPage: states only each particle's invariant and horizontal
  bounds. It does not state each particle's full new state, which
  `Particles.PageParticle.Step` states per particle. The `Valid` invariants are
  ghost predicates over the classes' fields.
- The markup of a history line, the prompt arrow before the typed text, is
  not modelled. A `History` line keeps the typed text as it was entered.
- Terminal.Term.KeyDown: a response is appended whole, not typed out
  character by character.
- Articles.ImageMatchFrom: the lazy `(.*?)` groups and `.` excluding line
  terminators are modelled. Other regular-expression behaviour is not.
