# Shelf-product detection evaluation and region mapping, in Dafny

This project models two parts of a stock-monitoring repository.

- **Detection evaluation** (`dataset/SKU110K_fixed/evaluate_model.py`). It reads YOLO
  ground-truth labels and converts them to corner boxes in pixels. It scores detections
  against the ground truth by intersection-over-union (IoU) and pairs them with a greedy
  one-to-one matcher (threshold 0.5). It computes per-image TP/FP/FN, precision and recall,
  then runs over the image list in batches of five and reports mean precision and recall.
- **Manual region mapper** (`mapeador_regioes.py`, class `MapeadorRegioes`). A mouse drag
  proposes a rectangle. The user confirms it as the next item of the current ID, starts new
  IDs, deletes the most recent item and saves a summary.

Modules:

| file | module | what it holds |
|---|---|---|
| `wrappers.dfy` | `Wrappers` | `Option` |
| `boxes.dfy` | `Boxes` | label rows, corner boxes, `ToCorners`/`YoloToXyxy`, `Iou` and its properties |
| `labels.dfy` | `Labels` | the label-file line filter and unpack, the load loop |
| `matching.dfy` | `Matching` | the greedy matcher as a function (`Greedy`) and as the source's nested loops (`GreedyMatch`) |
| `metrics.dfy` | `Metrics` | TP/FP/FN, precision, recall |
| `runner.dfy` | `Runner` | the per-image pipeline with its skip and exception outcomes, batches, the accumulator, finalisation |
| `region_mapper.dfy` | `RegionMapping` | the mapper's editing state as values (`Confirm`, `NextId`, `DeleteLast`, `SaveOf`) and the `RegionMapper` class whose methods update fields |

Modelling conventions:

- **Coordinates and scores** are mathematical reals. The IoU guard `1e-6` is the constant
  `Epsilon`. Mouse coordinates are integers.
- **IoU divisor.** The matcher takes the score function as a parameter, so its proofs do
  not depend on real arithmetic. The runner instantiates it with `Iou`.
- **Exceptions.** Every exception the per-image `try` block can catch becomes a `Failed`
  outcome with its reason:
  - an unreadable label file;
  - a label line of more than five fields, or of five fields with a non-number;
  - the model raising;
  - an IoU whose divisor is zero.
- **Interrupts.** A keyboard interrupt is an optional image index: the run stops before
  that image.
- **The mapper's `regioes` dictionary** is an insertion-ordered sequence of `Entry(key, id, items)`.
  Python dictionaries keep insertion order. The `key` and the entry's own `id` field are kept
  separate, so the invariant that they agree is a real invariant.

## Model

| member | source | states |
|---|---|---|
| Boxes.ToCorners | dataset/SKU110K_fixed/evaluate_model.py:23-27 | the box is centred at (cx·W, cy·H) and measures w·W by h·H; for w, h ≥ 0 it has x1 ≤ x2 and y1 ≤ y2 |
| Boxes.CornersRoundTrip | dataset/SKU110K_fixed/evaluate_model.py:19-28 | converting to corners and back recovers the normalised centre and size, for any positive image size |
| Boxes.YoloToXyxy | dataset/SKU110K_fixed/evaluate_model.py:19-28 | one box per row, in row order, so an empty table gives an empty result; all boxes are well formed when every row's w and h are ≥ 0 |
| Boxes.Intersection | dataset/SKU110K_fixed/evaluate_model.py:32-37 | the overlap area is clamped to be non-negative |
| Boxes.Iou | dataset/SKU110K_fixed/evaluate_model.py:30-41 | the division fails exactly when the guarded denominator `areaA + areaB − inter + 1e-6` is zero |
| Boxes.IouSymmetric | dataset/SKU110K_fixed/evaluate_model.py:30-41 | IoU(a, b) = IoU(b, a) |
| Boxes.IntersectionBelowArea | dataset/SKU110K_fixed/evaluate_model.py:37-39 | for well-formed boxes the overlap is at most the area of each box |
| Boxes.IouRange | dataset/SKU110K_fixed/evaluate_model.py:30-41 | for well-formed boxes the IoU is defined and lies in [0, 1) |
| Boxes.IouZeroIffDisjoint | dataset/SKU110K_fixed/evaluate_model.py:32-40 | for well-formed boxes the IoU is 0 exactly when the boxes do not overlap by a positive length in x or in y |
| Boxes.IouIdentical | dataset/SKU110K_fixed/evaluate_model.py:37-40 | a box against itself scores A/(A+1e-6), strictly below 1, and above 0.5 once A > 1e-6 |
| Labels.ParseLine | dataset/SKU110K_fixed/evaluate_model.py:13-16 | a line of fewer than five fields is dropped; more than five, or five with a non-number, raises; a row written back out gives the line |
| Labels.ParseLabels | dataset/SKU110K_fixed/evaluate_model.py:10-17 | a successful load yields at most one row per line |
| Labels.ParseLabelsFails | dataset/SKU110K_fixed/evaluate_model.py:10-17 | loading raises exactly when some line raises |
| Labels.ParseLabelsKeepsLongLines | dataset/SKU110K_fixed/evaluate_model.py:12-16 | a successful load keeps exactly the lines with at least five fields, in order |
| Labels.RenderRoundTrip | dataset/SKU110K_fixed/evaluate_model.py:10-17 | writing rows as five-number lines and loading them gives the rows back |
| Labels.LoadLabels | dataset/SKU110K_fixed/evaluate_model.py:8-17 | the load loop returns what the specification function `ParseLabels` gives |
| Matching.Scan | dataset/SKU110K_fixed/evaluate_model.py:140-148 | the inner scan returns an unused index with a positive score, or −1 with best score 0 |
| Matching.ScanBest | dataset/SKU110K_fixed/evaluate_model.py:142-148 | the scan's choice is the FIRST unused prediction of maximal score (strict `>`) |
| Matching.ScanFails | dataset/SKU110K_fixed/evaluate_model.py:142-145 | the scan raises exactly when the score of some unused prediction raises |
| Matching.Greedy | dataset/SKU110K_fixed/evaluate_model.py:137-151 | matches are one-to-one, ground truths appear in list order, and every index is in range |
| Matching.GreedyChoice | dataset/SKU110K_fixed/evaluate_model.py:139-151 | every match pairs its ground truth with the first unused prediction of maximal IoU, and that IoU is strictly above 0.5 |
| Matching.GreedyUnmatched | dataset/SKU110K_fixed/evaluate_model.py:139-151 | an unmatched ground truth had no unused prediction scoring above 0.5 when its turn came |
| Matching.GreedyCount | dataset/SKU110K_fixed/evaluate_model.py:137-151 | the number of matches is at most min(G, P) |
| Matching.GreedyFailurePersists | dataset/SKU110K_fixed/evaluate_model.py:139-151 | once a ground truth's scan raises, the whole matching raises |
| Matching.ScanPredictions | dataset/SKU110K_fixed/evaluate_model.py:140-148 | the inner loop over predictions returns what `Scan` gives: the best unused candidate, or a raise as soon as an unused prediction's IoU raises |
| Matching.GreedyMatch | dataset/SKU110K_fixed/evaluate_model.py:137-151 | the nested loops with `used_pred` compute `Greedy` |
| Matching.TwoOnTwoScenario | dataset/SKU110K_fixed/evaluate_model.py:139-151 | two identical ground truths and detections scoring about 0.9 and 0.6 give matches (0,0) and (1,1) |
| Metrics.ComputeMetrics | dataset/SKU110K_fixed/evaluate_model.py:154-159 | tp = M, tp+fp = P, tp+fn = G; precision·P = M and recall·G = M; each is 0 when its denominator is 0 |
| Metrics.MetricsBounds | dataset/SKU110K_fixed/evaluate_model.py:154-159 | when M ≤ G and M ≤ P: fp, fn ≥ 0; precision and recall lie in [0, 1]; each is 1 exactly when all its side matched and 0 exactly when M = 0 |
| Runner.ProcessImage | dataset/SKU110K_fixed/evaluate_model.py:103-173 | a missing label file skips the image; an evaluated image has sound metrics over non-empty ground truth and non-empty predictions |
| Runner.ProcessImageOutcomes | dataset/SKU110K_fixed/evaluate_model.py:103-171 | an unreadable label file fails the image; the image fails with a value error exactly when some label line is malformed; a label that loads to no rows skips; a non-empty label with an undecodable image skips; a model that raises fails the image; `NoPredictions` happens exactly for a non-empty label, a decoded image and zero detections; once the matcher is reached (ground truth, pixels, at least one detection), the image fails with the IoU division error exactly when the matcher raises; an evaluated image reached the matcher and the matcher returned |
| Runner.EvaluateImage | dataset/SKU110K_fixed/evaluate_model.py:104-173 | the per-image body, built from the load and match loops, yields `ProcessImage` |
| Runner.EvaluatedPath | dataset/SKU110K_fixed/evaluate_model.py:112-163 | a parsed, non-empty label, a decoded image and non-empty detections give the metrics of the greedy matches |
| Runner.Record | dataset/SKU110K_fixed/evaluate_model.py:130-163 | a skipped or failed image leaves the accumulator unchanged; otherwise one precision and one recall are appended after the old ones: (0, 0) for a zero-prediction image, the image's ratios for an evaluated one; `valid_images` grows by one only for an evaluated image |
| Runner.EvaluateAndRecord | dataset/SKU110K_fixed/evaluate_model.py:104-163 | evaluating an image and appending its outcome gives `Record` of its `ProcessImage` outcome |
| Runner.TallyOf | dataset/SKU110K_fixed/evaluate_model.py:130-163 | one precision/recall pair per evaluated or zero-prediction image; `valid_images` counts evaluated images only, so it never exceeds the number of pairs |
| Runner.NonContributingIgnored | dataset/SKU110K_fixed/evaluate_model.py:108-121 | a skipped or failed image anywhere in the run leaves the accumulator as if it were absent |
| Runner.Finalise | dataset/SKU110K_fixed/evaluate_model.py:183-189 | means exist exactly when `valid_images > 0`; each mean times the number of pairs equals the sum of the pairs |
| Runner.MeansInUnitInterval | dataset/SKU110K_fixed/evaluate_model.py:181-189 | the final means always lie in [0, 1] |
| Runner.NoEvaluatedNoMeans | dataset/SKU110K_fixed/evaluate_model.py:130-134 | a run with no evaluated image reports no means, even when zero-prediction zeros were accumulated |
| Runner.ZeroPredictionsDiluteMeans | dataset/SKU110K_fixed/evaluate_model.py:130-134 | a perfect image plus a zero-prediction image give means 0.5, with `valid_images` 1 |
| Runner.ScenarioGroundTruth | dataset/SKU110K_fixed/evaluate_model.py:8-28 | the line `0 0.5 0.5 0.2 0.2` on a 100×100 image loads to the box (40, 40, 60, 60) |
| Runner.ScenarioExactHit | dataset/SKU110K_fixed/evaluate_model.py:103-163 | a detection equal to that box gives TP 1, FP 0, FN 0, precision 1, recall 1 |
| Runner.ScenarioMiss | dataset/SKU110K_fixed/evaluate_model.py:103-163 | the detection (70, 70, 90, 90) gives TP 0, FP 1, FN 1, precision 0, recall 0 |
| Runner.Batches | dataset/SKU110K_fixed/evaluate_model.py:91-99 | there are ceil(n/5) batches |
| Runner.BatchesCover | dataset/SKU110K_fixed/evaluate_model.py:94-103 | the batches, concatenated, are the image list |
| Runner.BatchAt | dataset/SKU110K_fixed/evaluate_model.py:94-99 | for 5k < n, the slice `images[5k:5k+5]` is the k-th batch |
| Runner.BatchShape | dataset/SKU110K_fixed/evaluate_model.py:94-99 | batch k is the slice starting at 5k; it is non-empty and holds at most five images |
| Runner.ProcessNext | dataset/SKU110K_fixed/evaluate_model.py:103-173 | evaluating the next image extends the accumulator by that image's outcome |
| Runner.RunBatch | dataset/SKU110K_fixed/evaluate_model.py:103-173 | one batch processes its images in order, stopping only at the interrupt |
| Runner.NextBatch | dataset/SKU110K_fixed/evaluate_model.py:94-173 | batch k processes the images of `Batches(images)[k]` in order; without an interrupt it ends after the whole batch, at min(5k+5, n) |
| Runner.Run | dataset/SKU110K_fixed/evaluate_model.py:83-191 | the final accumulator is that of the images before the interrupt (or of all of them), and finalisation always follows |
| RegionMapping.NormalizeDrag | mapeador_regioes.py:97-126 | a rectangle is proposed exactly when both sides exceed 5 pixels; it is the tightest rectangle holding both points, with width and height equal to its side lengths |
| RegionMapping.NormalizeSymmetric | mapeador_regioes.py:103-106 | dragging in either direction proposes the same rectangle |
| RegionMapping.Confirm | mapeador_regioes.py:218-252 | without a pending rectangle nothing changes; otherwise the item `(currentItem, rect)` is appended under `currentId`, the item counter advances and the pending rectangle is cleared |
| RegionMapping.ConfirmOthersUntouched | mapeador_regioes.py:224-238 | confirming leaves every other ID's entry unchanged |
| RegionMapping.ConfirmKeepsInvariant | mapeador_regioes.py:225-238 | confirming keeps keys distinct, every `id` equal to its key, every item list non-empty, and no key above `currentId` |
| RegionMapping.NextId | mapeador_regioes.py:254-257 | the ID advances by one, numbering restarts at 1, and the store is unchanged |
| RegionMapping.NextIdKeepsInvariant | mapeador_regioes.py:254-257 | starting a new ID keeps the store invariant |
| RegionMapping.DeleteLast | mapeador_regioes.py:267-297 | deleting on an empty store changes nothing, and a pending rectangle is kept |
| RegionMapping.DeleteLastPopsLargest | mapeador_regioes.py:269-284 | deleting pops exactly the last item of the LARGEST key; the key vanishes exactly when that was its only item; other keys are untouched |
| RegionMapping.DeleteLastCounters | mapeador_regioes.py:283-295 | after deleting, the counters move to the largest remaining key and its count + 1, or to (1, 1) when the store empties; otherwise the ID stays and the item number is the remaining count + 1 |
| RegionMapping.DeleteKeepsInvariant | mapeador_regioes.py:267-297 | deleting keeps the store invariant |
| RegionMapping.ConfirmThenDeleteRestores | mapeador_regioes.py:218-297 | confirming and then deleting gives back the store as it was |
| RegionMapping.NewIdThenDeleteMismatch | mapeador_regioes.py:254-295 | a new ID followed by a delete leaves `currentId` on an absent ID with an item number taken from the previous ID |
| RegionMapping.SaveOf | mapeador_regioes.py:331-387 | saving an empty store gives nothing, otherwise a summary |
| RegionMapping.SaveCounts | mapeador_regioes.py:348-383 | `total_ids` is the number of IDs; there is one coordinate line per item (as many as `total_items`); records come in ascending ID order |
| RegionMapping.SortByKey | mapeador_regioes.py:354 | `sorted` of the entries is a permutation of them, of the same length, in ascending key order |
| RegionMapping.SaveStrictlyAscending | mapeador_regioes.py:354-360 | with distinct keys the records come in strictly ascending ID order |
| RegionMapping.CoordLinesFrom | mapeador_regioes.py:379-383 | every coordinate line is the line of some stored item |
| RegionMapping.CoordLinesHas | mapeador_regioes.py:379-383 | the line of every item of every entry written out is among the coordinate lines |
| RegionMapping.SavedLinesHaveEveryItem | mapeador_regioes.py:377-383 | saving writes the coordinate line of every stored item |
| RegionMapping.EntryLines | mapeador_regioes.py:380-383 | the inner loop writes one line per item of the entry, in order, as `ItemLines` gives them |
| RegionMapping.FindIndex | mapeador_regioes.py:225 | the membership test finds the key's slot, or reports it absent |
| RegionMapping.LargestIndex | mapeador_regioes.py:274 | `max(self.regioes.keys())` finds the slot of the largest key |
| RegionMapping.CountItems | mapeador_regioes.py:349 | the item sum equals `TotalItems` |
| RegionMapping.WriteOut | mapeador_regioes.py:354-383 | the per-ID records and the coordinate lines follow the sorted entries |
| RegionMapping.ConfirmAsWritten | mapeador_regioes.py:218-252 | as written, confirming is followed by a display refresh that may raise; the state is the confirmed one either way |
| RegionMapping.ConfirmAsWrittenRaises | mapeador_regioes.py:211-250 | as written, confirming a pending rectangle always raises NameError after updating the store |
| RegionMapping.RegionMapper.constructor | mapeador_regioes.py:35-45 | empty store, ID 1, item 1, nothing pending, not drawing |
| RegionMapping.RegionMapper.ButtonDown | mapeador_regioes.py:84-88 | a drag starts at the point; the editing state is unchanged |
| RegionMapping.RegionMapper.MouseMove | mapeador_regioes.py:91-94 | the end point follows the pointer only while drawing |
| RegionMapping.RegionMapper.ButtonUp | mapeador_regioes.py:97-126 | drawing stops; if a drag was ever started, the pending rectangle becomes `NormalizeDrag(start, p)` |
| RegionMapping.RegionMapper.ConfirmRegion | mapeador_regioes.py:218-252 | returns whether a rectangle was pending, updates the state to `Confirm`, and keeps the invariant |
| RegionMapping.RegionMapper.NewId | mapeador_regioes.py:254-260 | updates the state to `NextId` and keeps the invariant |
| RegionMapping.RegionMapper.DeleteLastItem | mapeador_regioes.py:267-297 | updates the state to `DeleteLast` and keeps the invariant |
| RegionMapping.RegionMapper.Save | mapeador_regioes.py:331-387 | returns `SaveOf` of the store and changes nothing |

## Left out

- Model inference (`YOLO(...)`, `model(...)`) and image decoding (`cv2.imread`) are foreign
  calls. Each image's label file, decoder answer and model answer are inputs (`ImageRecord`).
- The directory and model-file checks with `exit(1)`, listing and sorting the image paths, and
  opening and reading files are left out. The per-image log lines and the `.2f`/`.4f`
  formatting are left out as well.
- `clear_memory` (garbage collection and GPU cache release) has no observable effect on the
  results and is left out.
- String-to-float conversion is an input: each field arrives already classified as a number or
  not (`Token`).
- Boxes.Iou: a zero denominator is modelled as an exception that fails the image. Where the
  operands are numpy floats, the program instead yields inf or nan and carries on. Non-finite
  floats and rounding are not modelled.
- Runner.Run: a keyboard interrupt is modelled only between images, where it leaves the
  accumulator of the images before it. An interrupt inside an image is not modelled. Between
  the two appends (lines 132-133 or 161-162) it would leave `all_precisions` one longer than
  `all_recalls`, so finalisation divides the two sums by different counts. Between lines 162
  and 163 it would leave the pair appended but `valid_images` not incremented. No state of the
  model has either shape.
- Runner.ProcessImage: a zero-prediction image appends (0, 0) but is not counted in
  `valid_images`. This follows the code, where that branch ends with `continue` before the
  increment. It is an outcome of its own (`NoPredictions`), not an evaluated image.
- Boxes.IouIdentical: identical boxes score A/(A+1e-6) rather than exactly 1, following the code.
- OpenCV drawing, windows and the key loop are left out: `atualizar_display`, `executar`,
  `_mostrar_ajuda`, `listar_regioes`, `adicionar_item_mesmo_id` (it only prints) and `main`.
  `_gerar_cor_id` is modelled only through its effect, the NameError in `ConfirmAsWritten`.
- RegionMapping.RegionMapper.NewId and RegionMapping.RegionMapper.DeleteLastItem are modelled as
  intended. As written, their display refresh raises the same NameError whenever the store still
  holds an item. ButtonUp and MouseMove behave the same way.
- RegionMapping.SaveOf: the JSON and TXT files are left out, along with their names, timestamps,
  the image name and resolution, and the per-item timestamps. Only the totals, the per-ID
  records and the coordinate lines are modelled.
- `processar_mapeamento.py` (JSON loading, drawing, CSV export), `dataset/data_download.py`
  (dataset download) and `main.py` (device choice) are not part of this model.

## Findings

| source | as written | input that shows it | evidently intended | confidence | as-written member | corrected member |
|---|---|---|---|---|---|---|
| mapeador_regioes.py:211-216 | `_gerar_cor_id` calls `np.random`, but the file never imports numpy. Every display refresh with at least one stored item raises NameError, and `confirmar_regiao` refreshes after storing the item | any pending rectangle on a fresh mapper, then ENTER | import numpy; confirming stores the item and returns True | high, not executed | RegionMapping.ConfirmAsWrittenRaises | RegionMapping.RegionMapper.ConfirmRegion |
