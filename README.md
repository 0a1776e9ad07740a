# Viability calculator of Calculadora-ROI

Calculadora-ROI is a Streamlit page for a land developer. The developer enters:

- the price of a plot and its purchase tax;
- a construction model: cost per built m², built m², a soft-cost rate and a duration of 1 to 12 months;
- three comparable sale prices ("testigos").

When the analysis button is pressed, the page computes:

- the total investment;
- the sale price, as the mean of the comparables;
- the net profit;
- the operation ROI and the annualised ROI.

It then gives one of three verdicts:

- "ROI BAJO" (low ROI);
- "LUZ VERDE" (green light);
- "OPORTUNIDAD ÚNICA" (unique opportunity).

The last two verdicts also offer a PDF investment dossier.

This project models that calculation as pure Dafny functions over `real` in one module, `Viability` (`viability.dfy`), and proves properties of it:

- The market estimate is the mean of the comparables. It lies between the cheapest and the dearest, it does not depend on their order, and it scales with them.
- The four-step cost build-up (construction, taxed land, soft costs, total) equals taxed land plus construction, marked up by the soft-cost rate. With non-negative figures, the total covers the direct costs.
- The sign of the ROI compares the sale price with the investment, in both directions and for either sign of the investment.
- When the purchase tax and the soft-cost rate are both above −100 %, a dearer plot strictly raises the investment and strictly lowers the profit. If the investment and the sale price are also positive, it strictly lowers the ROI. The number inputs have no lower bound, so these conditions are not implied by the page.
- The ROI does not change when every money amount is expressed in another unit.
- Annualisation leaves the ROI unchanged over twelve months and maps a zero ROI to zero. It is at least the simple pro-rata scaling (Bernoulli's inequality). While the loss stays below the capital invested, it keeps the sign of the ROI and amplifies it.
- The verdict splits the ROI line into three tiers. 20 % and 40 % both give green light. The verdict is monotone in the ROI, and the dossier is offered exactly when the ROI is at least 20 %.
- `Analyze` is the whole button handler. It returns `DivisionByZero` exactly when the investment is zero; in Python that division raises an exception.

The estimate is the plain mean of three prices. The only failure is the unguarded division. The inputs are constrained only by what the widgets enforce.

## Model

| member | source | states |
|---|---|---|
| `Viability.MarketMean` | app.py:120 | the estimate is the mean of the three comparables: their deviations from it sum to zero (line 132 takes it as the sale price, `SalePrice`) |
| `Viability.MarketMeanBounds` | app.py:117-120 | the estimated sale price lies between the smallest and the largest comparable, and equals them when all three agree |
| `Viability.MarketMeanSymmetric` | app.py:120 | the estimate does not depend on the order in which the comparables are entered |
| `Viability.MarketMeanScales` | app.py:120 | comparables scaled by k give an estimate scaled by k |
| `Viability.BuildCost` | app.py:127 | construction cost is cost per m² × built m², non-negative when both factors are |
| `Viability.LandCost` | app.py:128 | land cost is the price × (1 + tax), at least the price when price and tax are non-negative |
| `Viability.SoftCosts` | app.py:129 | soft costs are (construction + land) × rate; within the slider's 5–25 % they lie between 5 % and 25 % of a non-negative base |
| `Viability.Investment` | app.py:130 | the total is land + construction + soft costs, at least land + construction when the soft costs are not negative |
| `Viability.InvestmentClosedForm` | app.py:127-130 | the total is (land price × (1 + tax) + cost/m² × m²) × (1 + soft-cost rate) |
| `Viability.InvestmentCoversDirectCosts` | app.py:127-130 | with non-negative prices, areas and rates: land, construction and soft costs are non-negative; the total is at least land plus construction; a positive rate on a positive base gives strictly positive soft costs |
| `Viability.NetProfit` | app.py:133 | profit is sale price − investment: positive iff the sale price exceeds the investment, zero iff they are equal |
| `Viability.RoiOf` | app.py:134 | ROI × investment = 100 × profit; ROI is zero iff the profit is; for a positive investment ROI and profit have the same sign; for a negative one a positive ROI means a negative profit |
| `Viability.RoiOfScaleFree` | app.py:134 | the same profit and investment scaled by k > 0 give the same ROI |
| `Viability.Roi` | app.py:132-134 | ROI = 0 iff sale price = investment; with investment > 0, ROI > 0 iff sale price > investment and ROI < 0 iff sale price < investment; with investment < 0, ROI > 0 iff sale price < investment |
| `Viability.DearerLandRaisesInvestment` | app.py:128-130 | raising the land price by d > 0 raises the total by d × (1 + tax) × (1 + rate), a strictly positive amount when tax and rate exceed −1 |
| `Viability.DearerLandLowersProfit` | app.py:128-133 | with tax and soft-cost rate above −100 %, a dearer plot strictly lowers the net profit |
| `Viability.DearerLandLowersRoi` | app.py:128-134 | with tax and soft-cost rate above −100 % and a positive investment and sale price, a dearer plot keeps the investment positive and strictly lowers the ROI |
| `Viability.ScaleScalesInvestment` | app.py:127-130 | scaling land price and cost/m² by k scales the total investment by k |
| `Viability.ScaleScalesProfit` | app.py:120-133 | scaling land price, cost/m² and the three comparables by k scales the net profit by k |
| `Viability.ScaleKeepsRoi` | app.py:120-134 | scaling land price, cost/m² and the three comparables by k > 0 keeps the investment non-zero and the ROI unchanged |
| `Viability.Annualized` | app.py:135 | ((1 + ROI/100)^(12/months) − 1) × 100 for durations dividing the year: equal to the ROI over twelve months, and above −100 whenever the ROI is |
| `Viability.AnnualizedOverYear` | app.py:135 | over twelve months the annualised ROI equals the operation ROI |
| `Viability.AnnualizedOfZero` | app.py:135 | a zero ROI annualises to zero for every duration dividing the year |
| `Viability.AnnualizedAtLeastSimple` | app.py:135 | for ROI ≥ −100 the annualised ROI is at least (12 / months) × ROI |
| `Viability.AnnualizedAmplifies` | app.py:135 | for ROI > −100: a non-negative ROI annualises to at least itself; a non-positive one annualises to a value in (−100, ROI] |
| `Viability.Classify` | app.py:151-163 | green light iff 20 ≤ ROI ≤ 40, unique opportunity iff ROI > 40, low ROI iff ROI < 20 |
| `Viability.ClassifyMonotone` | app.py:151-163 | a higher ROI never receives a lower tier |
| `Viability.OffersDossier` | app.py:149-170 | the dossier is offered iff ROI ≥ 20 |
| `Viability.Analyze` | app.py:126-170 | division by zero iff the investment is zero; otherwise 3 × sale price = sum of the comparables, the investment has the closed form, profit = sale − investment, ROI × investment = 100 × profit, and the verdict and dossier follow the tiers |

`Pow`, `PowOfOne`, `PowPositive`, `PowUnitInterval` and `PowBernoulli` are facts about whole powers that the annualisation lemmas use. The lemmas on plain reals (`ProductPositive`, `RatioShrinks`, `ScaledProduct`, and the others) are arithmetic steps that keep the solver's work small.

## Left out

- The Streamlit page itself is not modelled: page setup, CSS, widgets, columns, metrics, messages, the bar chart of the cost breakdown and the download button (app.py:8-34, 106-119, 137-168, 177). It is presentation around a library that is not part of this model. The ranges the sliders enforce (1 to 12 months, a soft-cost rate of 5 % to 25 %) are the predicate `WidgetRanges`.
- The `PDF` class and `generar_pdf` (app.py:37-102) are not modelled. They are FPDF layout, latin-1 encoding and today's date: a foreign library, byte formatting and a clock. Only the decision to produce the dossier is modelled, by `OffersDossier`.
- The logo checks with `os.path.exists` (app.py:22, 40) are file-system I/O.
- Floating point: the page computes in IEEE doubles, and the model computes in exact reals. The widgets hand over whole numbers, and the model admits any real. Rounding and the `:,.0f` / `:.2f` formatting of the results are not modelled.
- `Annualized`: it is defined only for durations that divide twelve (1, 2, 3, 4, 6 and 12 months). For those, `12 / months` is a whole exponent. Python's `**` then gives a real result even for a negative base, and `Pow` computes the same value. For 5, 7, 8, 9, 10 and 11 months the page raises to a fractional power. That is not expressible here. For an ROI below −100 it even yields a complex number.
- `Analyze`: the result does not carry the annualised ROI (app.py:135), because that needs the fractional power above for most durations. `Annualized` gives it for durations that divide the year.

