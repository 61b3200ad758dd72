# Ultralight Digital Human — a Dafny model of its core

Ultralight Digital Human is a lightweight lip-sync "digital human". A small
network predicts the mouth region of a face from a window of audio features
(HuBERT or WeNet rows). The inference scripts cut a square crop around the
face landmarks of each template frame, predict the 160×160 inner region and
paste the crop back into the frame. Around this sit the generators. They draft
a sales script with the DeepSeek chat API, pick an "action" (a range of
template images) for each sentence by keyword score, synthesise speech,
extract features, render a video and stream it over UDP with ffmpeg.

This project models that core in Dafny and proves what its code promises:

- **Frames.** `FeatureWindow` is the 8-row audio window with Python slice
  clamping and zero padding. `IndexWalk` is the ping-pong walk over template
  images. `Landmarks` parses landmark files strictly and leniently.
  `FaceBox` holds the clamped square crop box. `PasteBack` writes the
  predicted block into the crop and the crop into the frame, on `array2`.
  `InferenceLoop` is the per-frame loop of the plain and the improved
  inference scripts, with their counters and exit codes.
- **Training data.** `TrainingData` models `len`, `process_img` and the
  ten-attempt retry of `__getitem__`.
- **Actions.** `ActionClassifier` is the keyword scoring and range lookup of
  the paragraph, client and enhanced generators. `BatchActions` covers the
  batch generator's per-sentence ranges, frame estimates and frame lookup.
  `EnhancedSequence` is the enhanced generator's image-index sequence.
- **Text.** `ScriptText` is sentence parsing, quote cleanup, fallback
  scripts and sentence splitting. `PyText` models the Python string builtins
  these rely on, as far as the source uses them. `EnvFile` is the `.env`
  loader. `CliArgs` is argument validation and the stream flags.
- **Queues and producers.** `PyQueue` is a bounded `queue.Queue`.
  `LiveStream` holds the stream buffers with drop and evict policies, the
  speech cache and the generation loop. `Producers` contains the producer
  loops and the counters behind file names.
- **Streaming.** `Streamer` is the buffered ffmpeg streamers and their
  command lines. `StreamTasks` is the task scheduler and monitor of the
  async streamer and the stats of its manager.
- **Audio features.** `HubertChunks` is the chunked HuBERT extraction, with
  its 80-sample overlap, 400-sample tail rule, length fix and even-row trim.
  `SimpleHubert` is the MFCC tiling into 1024 columns.

The outside world enters as parameters: random draws as functions from a
draw number to a value, the clock as a millisecond count, file existence and
file contents as values, and the result of an HTTP call or a subprocess as an
oracle input. Where the source mutates an object, the model is a class with
`modifies` frames. Where it loops, the model is a method with invariants,
proved against a specification function.

## Model

| member | source | states |
|---|---|---|
| FeatureWindow.ZerosLike | inference.py:46 | `zeros_like` of a block has one all-zero row of the same width for every row of the block |
| FeatureWindow.Slice | inference.py:44 | `features[left:right]` with Python clamping: the length is `max(0, min(b, n) - min(a, n))` and row `k` is `features[a + k]` |
| FeatureWindow.PadFront | inference.py:45-46 | the left padding adds `min(pad, len(auds))` zero rows, because it takes `zeros_like` of a prefix of what is present, and keeps the present rows behind them |
| FeatureWindow.PadBack | inference.py:47-48 | the right padding adds `min(pad, len(rows))` zero rows after the rows, for the same reason |
| FeatureWindow.GetAudioFeatures | inference.py:33-49 | the window never has more than 8 rows |
| FeatureWindow.WindowLayout | inference.py:33-49 | the window is the left zero rows, then exactly the present rows `features[max(0, i-4):min(n, i+4)]` in order, then the right zero rows; its length is the sum of the three |
| FeatureWindow.PaddedLayout | inference.py:44-48 | both pads together: the length is `pl + s + min(pr, s + pl)`, where `pl = min(pad_left, s)` and `s` is the slice length; zero rows sit on both sides of the slice |
| FeatureWindow.FullPadding | inference.py:34-43 | with at least 4 rows and `0 <= i < n`, the pads are `max(0, 4 - i)` and `max(0, i + 4 - n)` and the slice has `min(n, i + 4) - max(0, i - 4)` rows |
| FeatureWindow.EightRows | inference.py:33-49 | with at least 4 feature rows and `0 <= i < n`, the window has exactly 8 rows; row `k` is `features[i - 4 + k]` when that index exists and a zero row otherwise |
| FeatureWindow.WindowRow | inference.py:33-49 | the same statement for a single row `k < 8` of the window |
| FeatureWindow.ShortWindow | inference.py:33-49 | with 3 feature rows, frame 0 gets a 7-row window, so the 8-row shape needs at least 4 rows |
| IndexWalk.PingPongFirst | inference.py:62-73 | the first frame reads image 1, whatever the pool size |
| IndexWalk.PingPongStride | inference.py:68-73 | after the first frame the stride is always +1 or -1 |
| IndexWalk.PingPongMovesByOne | inference.py:68-73 | successive frames read images whose numbers differ by exactly one |
| IndexWalk.PingPongInPool | inference.py:54-73 | with `len_img >= 1`, every frame reads an image in `[0, len_img]` |
| IndexWalk.PingPongSingleImage | inference.py:68-73 | with `len_img == 0` the walk alternates 1, 0, 1, …, so every other frame asks for image 1, which is outside the pool |
| IndexWalk.Clamp | agent/dh_generator.py:295 | `max(0, min(v, hi))` lies in `[0, hi]` and leaves a value already in range unchanged |
| IndexWalk.ScriptImageIndex | agent/dh_generator.py:285-295 | the generated script's index is always in `[0, 1177]`, and for `0 <= start <= end <= 1177` it stays in `[start, end]` |
| IndexWalk.RangeWalkBounds | agent/dh_generator.py:285-292 | the triangle walk stays in `[start, end]`; a range of size at most 1 gives `start` |
| IndexWalk.RangeWalkPeriod | agent/dh_generator.py:286 | the walk repeats with period `2 * size - 2` |
| IndexWalk.RangeWalkStep | agent/dh_generator.py:286-290 | from one frame to the next, the walk moves by exactly one image |
| IndexWalk.RangeWalkAtEnd | agent/dh_generator.py:286-290 | within each period the walk is at `end` exactly once, at offset `size - 1` |
| IndexWalk.LocateSentence | digital_human_batch_generator.py:490-497 | the lookup loop that subtracts `frames` returns what the `Locate` function gives: the first window that holds frame `i`, or sentence 0 with the offset past the last window |
| IndexWalk.FirstWindowIsFirst | digital_human_batch_generator.py:490-497 | the located sentence `k` is the first whose cumulative window holds `i`: `i` is below the sum of the first `k + 1` windows and at or above every shorter prefix sum, and the offset is `i` minus the earlier frames; when there is no such window, `i` is at or past every prefix sum |
| IndexWalk.BatchImageIndex | digital_human_batch_generator.py:489-520 | the generated per-frame choice equals its specification: the located sentence capped at the last range, the triangle walk inside that range, and the clamp to `[0, len_img]`; an empty range list raises IndexError, because the capped sentence index is `-1` and `action_ranges[-1]` of an empty list fails |
| IndexWalk.SimpleSequence | enhanced_digital_human_generator.py:245-260 | the loop emits `audio_length` indices, and element `k` is the walk's position before step `k` |
| IndexWalk.SimpleInRange | enhanced_digital_human_generator.py:251-258 | with at least two images every element is in `[0, total - 1]` and successive elements differ by exactly one |
| IndexWalk.SimpleSingleImage | enhanced_digital_human_generator.py:251-258 | with one image the second element is already 1, outside the pool |
| Landmarks.ReadLandmarks | inference.py:80-88 | the reading loop returns exactly `ParseLines`: the points of the two-token lines in file order, or the error of the first unparsable two-token line (strict read) |
| Landmarks.ParseLinesCount | inference_improved.py:171-182 | there is at most one point per two-token line and the lenient read never fails; when the strict read succeeds it agrees with the lenient one and has one point per two-token line |
| Landmarks.LenientPoints | inference_improved.py:178-182 | the points the lenient read keeps are its `Ok` value |
| Landmarks.TwoTokens | inference.py:84-85 | a line made of two space-free tokens around one space splits into exactly those two tokens |
| FaceBox.MinX | inference.py:100 | `np.min(all_x)` is at most every landmark's x |
| FaceBox.MaxX | inference.py:101 | `np.max(all_x)` is at least every landmark's x |
| FaceBox.MinY | inference.py:102 | `np.min(all_y)` is at most every landmark's y |
| FaceBox.MaxY | inference.py:103 | `np.max(all_y)` is at least every landmark's y |
| FaceBox.ExtremesAttained | inference.py:100-103 | each extreme is the coordinate of some landmark |
| FaceBox.CropBox | inference.py:105-133 | an accepted box satisfies `0 <= xmin < xmax <= img_w` and `0 <= ymin < ymax <= img_h`; it is accepted exactly when the clipped square has positive width and height, and then it is that clipped square |
| FaceBox.AxisCovers | inference.py:111-120 | on one axis, a span of extent at most `s`, re-centred with side `int(1.2 s)`, stays inside the square |
| FaceBox.SquareAroundCovers | inference.py:106-120 | the re-centred box is a square of side `int(1.2 * max(w, h))`, at least the larger extent, and contains the landmarks' bounding box |
| FaceBox.SquareCoversLandmarks | inference.py:97-120 | before clipping, the square has side `int(1.2 * max(w, h))` and covers every landmark |
| FaceBox.CropCoversVisibleLandmarks | inference.py:122-126 | a landmark inside the image is still inside the clipped crop |
| FaceBox.CropAccepted | inference.py:128-133 | when the landmarks lie inside the image and span more than one pixel each way, the crop is accepted |
| PasteBack.SubGrid | inference.py:135 | `img[top:top+h, left:left+w]` is an `h` by `w` image whose pixel `(r, c)` is `img[top + r][left + c]` |
| PasteBack.Paste | inference.py:172 | the slice assignment keeps the image's shape, puts the block's pixel inside the rectangle and keeps the old pixel outside it |
| PasteBack.SubGridOfPaste | inference.py:170-172 | cutting out the region just pasted gives back the block |
| PasteBack.PasteOfSubGrid | inference.py:135-172 | pasting back a region cut from the same image changes nothing |
| PasteBack.GridOf | inference.py:77 | the value of a frame buffer is an image of its dimensions, pixel for pixel |
| PasteBack.WriteBlock | inference.py:172 | the in-place slice assignment on the buffer writes the block inside the rectangle and leaves every other pixel as it was |
| PasteBack.PasteInto | inference.py:170-172 | the in-place write leaves the buffer holding `Paste` of its old contents |
| PasteBack.FillRect | inference.py:146 | `cv2.rectangle(..., -1)` keeps the image's shape |
| PasteBack.MaskMouth | inference.py:146 | the masked face is still 160 by 160 |
| PasteBack.MaskShape | inference.py:146 | the mask blacks out rows 5..149 and columns 5..154 of the face and keeps every other pixel |
| PasteBack.InnerFace | inference.py:144 | `crop_img[4:164, 4:164]` of the 168 by 168 crop is 160 by 160 |
| PasteBack.RenderFace | inference.py:141-172 | the written frame has the shape of the source image |
| PasteBack.RenderOnlyTheBox | inference.py:141-172 | every pixel outside the face box is unchanged, and the box holds the framed face resized back to the box's size |
| PasteBack.FramedFace | inference.py:142-170 | the framed face is 168 by 168 |
| PasteBack.FramedBorder | inference.py:142-170 | in the 168 by 168 crop only `[4,164) x [4,164)` is replaced: the 4-pixel border keeps the resized original, and the centre is the network output for the face and its masked copy |
| PasteBack.FrameFace | inference.py:142-170 | the method on a fresh buffer yields exactly `FramedFace` |
| PasteBack.CopyWithCentre | inference.py:143-170 | the copy of the crop with the prediction written into its centre equals `Paste(crop, 4, 4, pred)` |
| PasteBack.RenderFrame | inference.py:141-172 | after the in-place steps the frame buffer holds `RenderFace` of its old contents |
| InferenceLoop.ParseMode | inference_improved.py:106-111 | the mode is accepted exactly for "hubert" and "wenet"; "hubert" maps to the hubert shape |
| InferenceLoop.ToArray | inference_improved.py:162 | a fresh buffer of the image's dimensions holds the image |
| InferenceLoop.ProcessFrame | inference_improved.py:150-276 | one iteration on the frame buffer yields the outcome that `ImprovedFrame` specifies: the skip path (missing file, missing landmarks, unreadable image, fewer than 10 landmarks, degenerate crop, per-frame exception) or the rendered frame |
| InferenceLoop.ImprovedFrame | inference_improved.py:150-276 | an alarm during the frame always skips it; a frame is written only from a readable image whose landmark file gives at least 10 points, and it has that image's shape |
| InferenceLoop.FramesToProcess | inference_improved.py:129-131 | the rows count without `max_frames`; with it, `min(rows, max_frames)`, and nothing for a negative cap |
| InferenceLoop.Outcomes | inference_improved.py:138-276 | `n` iterations give `n` outcomes |
| InferenceLoop.OutcomeAt | inference_improved.py:140-145 | outcome `k` is the iteration on the image the walk shows after `k + 1` steps: the walk moves before any check, so a skipped frame still advances it |
| InferenceLoop.CountsAddUp | inference_improved.py:150-276 | every iterated frame is either written or skipped, never both |
| InferenceLoop.WrittenInOrder | inference_improved.py:266-267 | every written outcome's frame is in the video |
| InferenceLoop.OutcomesStep | inference_improved.py:150-276 | one more iteration appends its frame to the video or adds one to the skip count |
| InferenceLoop.FrameLoop | inference_improved.py:123-276 | the loop's video is the written outcomes in order, `processed_frames` is their number, and `skipped_frames` counts the skipped ones |
| InferenceLoop.RunImproved | inference_improved.py:83-302 | `main` (setup checks, then the frame loop) returns exactly `ImprovedMain` |
| InferenceLoop.ImprovedMain | inference_improved.py:83-302 | `main` either exits with 0 or fails its setup with 1, nothing written and both counters at 0; `processed_frames` is the number of written frames |
| InferenceLoop.ImprovedMainCounts | inference_improved.py:97-302 | exit code 0 exactly when the example image reads, the mode is hubert or wenet and the writer opens; on failure nothing is written; on success `processed + skipped` equals the number of frames iterated |
| InferenceLoop.FewLandmarksSkip | inference_improved.py:171-187 | two-token lines that fail to parse are dropped, and fewer than 10 points skips the frame |
| InferenceLoop.WrittenFrameKeepsBackground | inference_improved.py:192-263 | a written frame came from a readable image with at least 10 landmarks and an accepted crop, and it equals that image outside the face box |
| InferenceLoop.TimeoutIsSwallowed | inference_improved.py:273-290 | as written, a timeout during frame `k` only skips that frame and `main` still returns 0 |
| InferenceLoop.TimedRunStops | inference_improved.py:287-290 | with the timeout ending the run as intended, the exit code is 1 and only the frames before the alarm are counted; with no alarm inside the run nothing changes |
| InferenceLoop.ImprovedMainTimed | inference_improved.py:273-302 | the corrected `main`: `processed_frames` is the number of written frames, and with no alarm it is `main` as written |
| InferenceLoop.OutcomesNoAlarm | inference_improved.py:137-138 | an alarm at or after the last iterated frame changes no outcome |
| InferenceLoop.PlainFrame | inference.py:68-173 | a frame inference.py writes needs a valid `--asr` mode, a readable image and its landmark file, and has the image's shape |
| InferenceLoop.PlainFrom | inference.py:68-173 | frames `i..n-1` write at most `n - i` frames |
| InferenceLoop.PlainInference | inference.py:51-174 | with an `--asr` other than hubert or wenet no writer is bound, so the script always crashes and writes nothing: at the first frame that reaches `video_writer.write`, or else at the final `video_writer.release()` |
| InferenceLoop.InvalidModeWritesNothing | inference.py:58-173 | without a writer no frame is ever written: every frame that gets as far as the write raises there |
| InferenceLoop.OutcomesFrom | inference.py:68 | frames `i..n-1` give `n - i` outcomes |
| InferenceLoop.PlainAgreesFrom | inference.py:68-173 | inference.py writes at most one frame per feature row, and when it does not crash it writes exactly the improved script's written frames |
| InferenceLoop.OutcomesFromIsOutcomes | inference.py:68 | the outcomes from frame `i` on are the tail of the whole run's outcomes |
| InferenceLoop.PlainAgreesWithImproved | inference.py:51-174 | a run of inference.py that does not crash writes the same video as inference_improved.py with the same inputs and no timeout |
| InferenceLoop.PlainFrameAgrees | inference.py:77-173 | a frame that inference.py survives is written by it exactly when the improved script writes it, with the same pixels |
| TrainingData.Len | datasetsss.py:33-34 | `__len__` is the smaller of the feature row count and the image count: it is at most both and equal to one of them |
| TrainingData.FaceCrop | datasetsss.py:56-124 | a face crop that does not raise is 168 by 168; it raises `ValueError` for a missing image, fewer than 10 landmarks or a degenerate clipped box, and `FileNotFoundError` for a missing landmark file |
| TrainingData.ProcessImg | datasetsss.py:55-203 | `process_img` succeeds exactly when both the target and the reference crop succeed, each clipped to its own image; the result holds the 160 by 160 reference, the unmasked target copied before masking, and the masked target |
| TrainingData.DummySampleFixed | datasetsss.py:231-237 | the corrected zero sample has the audio shape of a real sample of its mode |
| TrainingData.DummySample | datasetsss.py:233-237 | the zero sample as written has the rank and the trailing dimensions of the mode's real audio, so only the leading dimension can differ (`DummyShapeMismatch` shows that it does for hubert) |
| TrainingData.DummyShapeMismatch | datasetsss.py:220-237 | the hubert zero sample is 32x32x32, twice the 16x32x32 values of a real one, while the wenet zero sample matches |
| TrainingData.Attempt | datasetsss.py:209-225 | an attempt that succeeds is a real sample whose audio is the window at the retried index, with the mode's shape |
| TrainingData.Attempts | datasetsss.py:206-218 | there are ten attempts, and attempt `r` works on index `(idx + r) % len` with the reference drawn for it |
| TrainingData.GetItem | datasetsss.py:205-238 | the retry loop returns exactly `GetItemSpec`: the first attempt that succeeds, else the zero sample |
| TrainingData.GetItemSpec | datasetsss.py:205-238 | `__getitem__` returns a real sample with the mode's audio shape, or else exactly the zero sample as written |
| TrainingData.FirstOkReal | datasetsss.py:207-237 | when every success is a real sample of one shape and the fallback is a zero sample, the result is a real sample of that shape or the fallback itself |
| TrainingData.FirstOkIsFirst | datasetsss.py:207-228 | a result other than the zero sample is the first successful attempt; all attempts before it failed |
| TrainingData.AllFailedGivesDummy | datasetsss.py:228-237 | when every attempt fails the result is the zero sample |
| TrainingData.FirstOkShapes | datasetsss.py:207-237 | if every successful attempt and the zero sample share an audio shape, the result has it |
| TrainingData.GetItemRealSample | datasetsss.py:209-218 | a real sample comes from the first attempt `r` that succeeds, and its audio window is taken at `(idx + r) % len` |
| TrainingData.HubertDummyDiffers | datasetsss.py:233-237 | as written, a hubert item whose ten attempts all fail has a different audio shape from every real hubert sample |
| TrainingData.FixedDummyShapes | datasetsss.py:220-237 | with the corrected zero sample every item has the audio shape of its mode |
| ActionClassifier.IndexOf | digital_human_paragraph_generator.py:160-166 | every category has a position in the tables' insertion order, and the category sits at that position |
| ActionClassifier.AllCategories | digital_human_paragraph_generator.py:160-166 | the five categories are exactly the keys of every table |
| ActionClassifier.Lookup | digital_human_paragraph_generator.py:198 | a key found names a category with that key; a key not found matches no category |
| ActionClassifier.ConfiguredRangesBounded | digital_human_batch_generator.py:94-118 | every category of the three tables has at least one range, and every range is ordered and lies in 0 to 1177 |
| ActionClassifier.Hits | digital_human_paragraph_generator.py:182-184 | a category's score is at most its number of keywords |
| ActionClassifier.HitsCountsMatches | digital_human_paragraph_generator.py:182-184 | a category's score is the number of its keyword positions whose keyword occurs in the text |
| ActionClassifier.Scores | digital_human_paragraph_generator.py:178-184 | one score per category, in table order, each the score of that category's keywords |
| ActionClassifier.CountHits | digital_human_batch_generator.py:156-160 | the inner loop's counter ends at the category's score |
| ActionClassifier.ActionScores | digital_human_paragraph_generator.py:178-184 | the nested loop leaves every category in the score dictionary, with its score |
| ActionClassifier.FirstMaxIndex | digital_human_paragraph_generator.py:187 | `max(d, key=d.get)` picks a position whose score no other beats and that every earlier position scores strictly below |
| ActionClassifier.MaxOf | digital_human_batch_generator.py:163 | `max(scores.values())` is at least every score |
| ActionClassifier.MaxOfAtFirstMax | digital_human_batch_generator.py:163-164 | the largest score is the score of the category `max(scores, key=scores.get)` returns |
| ActionClassifier.ClassifyChoice | digital_human_paragraph_generator.py:176-194 | a text with a keyword hit gets the first category with the highest score, which is positive; a text with no hit gets the randomly drawn category |
| ActionClassifier.ClassifyByBest | digital_human_paragraph_generator.py:176-194 | with a keyword hit the chosen category has the highest score; with none it is the category `random.choice` drew |
| ActionClassifier.ClassifyFormsAgree | digital_human_batch_generator.py:149-167 | the batch generator's `max(...) > 0` guard on the lower-cased text chooses what the paragraph generator's zero-score fallback chooses on that lower-cased text |
| ActionClassifier.ClassifyByMax | digital_human_batch_generator.py:149-167 | on the lower-cased text: when `max(scores.values()) > 0` the chosen category has that maximum; otherwise it is the drawn category |
| ActionClassifier.LowerNoCapitals | digital_human_batch_generator.py:151 | lower-casing a text without ASCII capitals leaves it as it is |
| ActionClassifier.AnalyzeTextAction | digital_human_paragraph_generator.py:176-194 | the scoring loop and the choice return the category the classification function defines |
| ActionClassifier.AnalyzeSentence | enhanced_digital_human_generator.py:139-161 | the lower-casing scoring loop and the guarded maximum return the category the guarded classification defines |
| ActionClassifier.GetActionRange | digital_human_paragraph_generator.py:196-201 | the lookup succeeds exactly when the type's list is non-empty; it returns one of the type's ranges, and `(0, 100)` for a type the table does not know |
| ActionClassifier.ManagerRangeBounded | agent/dh_clients.py:132-137 | with the configured table the lookup never fails and its range lies in 0 to 1177 |
| ActionClassifier.StubAnalyze | agent/dh_generator.py:33-37 | the stand-in manager names a category the tables know |
| ActionClassifier.StubRange | agent/dh_generator.py:33-37 | the stand-in's range is ordered |
| ActionClassifier.StubRangeIsDefault | agent/dh_generator.py:33-37 | the stand-in answers what the real lookup answers for a type it does not know |
| BatchActions.TotalImages | digital_human_batch_generator.py:123-128 | the image count is the number of `.jpg` files, or 1177 when the directory is missing |
| BatchActions.BatchRangesSpec | digital_human_batch_generator.py:131-147 | one range per sentence, each the clamped range of that sentence's category |
| BatchActions.AnalyzeBatchActions | digital_human_batch_generator.py:131-147 | the loop builds exactly the per-sentence ranges, in sentence order |
| BatchActions.BatchRangesBounded | digital_human_batch_generator.py:140-142 | with at least one image every range is ordered and inside 0 to `total_images - 1`; with 1178 images or more it is one of the category's configured ranges |
| BatchActions.NoImagesGivesMinusOne | digital_human_batch_generator.py:141-142 | with no image both ends of every range are -1 |
| BatchActions.TotalCharsZero | digital_human_batch_generator.py:473-477 | a zero character total means every sentence is empty |
| BatchActions.FrameEstimates | digital_human_batch_generator.py:472-479 | one estimate per sentence, each from the sentence count, the character total and that sentence's ratio |
| BatchActions.SentenceFrames | digital_human_batch_generator.py:472-479 | the loop builds exactly the per-sentence estimates |
| BatchActions.FrameEstimatesBounds | digital_human_batch_generator.py:477-478 | every estimate is at least 10 frames, and with no characters at all it is `max(10, 100 // len(sentences))` for every sentence |
| EnhancedSequence.RandInt | enhanced_digital_human_generator.py:186-189 | `random.randint(lo, hi)` answers a value between both bounds, inclusive |
| EnhancedSequence.Without | enhanced_digital_human_generator.py:206 | the other categories are exactly the keys different from the current one |
| EnhancedSequence.Others | enhanced_digital_human_generator.py:206-207 | there are always four other categories, so the `if other_actions` guard always holds, and every category but the current one is among them |
| EnhancedSequence.OthersCount | enhanced_digital_human_generator.py:206 | leaving the current category out of the five keys leaves four |
| EnhancedSequence.SwitchChangesCategory | enhanced_digital_human_generator.py:204-209 | a switch always moves to a category different from the current one |
| EnhancedSequence.Segment | enhanced_digital_human_generator.py:190-198 | a segment has exactly its drawn duration, cut to the frames still missing, and at least one index |
| EnhancedSequence.TurnSegment | enhanced_digital_human_generator.py:176-201 | every turn of the loop emits at least one index, so `frame_idx` grows |
| EnhancedSequence.SmoothSequence | enhanced_digital_human_generator.py:223-239 | the loop appends exactly the eased and clamped value of every position |
| EnhancedSequence.Smooth | enhanced_digital_human_generator.py:223-239 | one index for a duration of 1 or less; otherwise `duration` indices inside the pool, the first exactly `start_img` and the last exactly `end_img` when those lie in the pool |
| EnhancedSequence.FitLength | enhanced_digital_human_generator.py:213-218 | the trimmed or padded sequence has exactly `audio_length` indices |
| EnhancedSequence.MakeSegment | enhanced_digital_human_generator.py:193-198 | the branch on a one-image range builds exactly the segment the specification defines |
| EnhancedSequence.SwitchAction | enhanced_digital_human_generator.py:203-210 | the switch keeps the category unless frames are still missing and the draw is below the change probability |
| EnhancedSequence.OneTurn | enhanced_digital_human_generator.py:176-210 | one turn emits the turn's segment, advances `frame_idx` strictly but not past the audio length, and keeps the remaining output equal to the whole specified sequence |
| EnhancedSequence.SegmentLoop | enhanced_digital_human_generator.py:173-210 | the `while frame_idx < audio_length` loop emits exactly the specified segments from the first turn on |
| EnhancedSequence.GetActionSequence | enhanced_digital_human_generator.py:163-221 | the method returns the specified sequence, or the error the source raises |
| EnhancedSequence.ActionSequence | enhanced_digital_human_generator.py:163-221 | it fails exactly when variety is on and the audio length is 0 or less or the duration range is empty; otherwise it has `audio_length` indices, or none for a length of 0 or less |
| EnhancedSequence.LoopTurn | enhanced_digital_human_generator.py:200-210 | the loop invariant, output so far plus the rest of the specification equals the whole, survives one turn |
| EnhancedSequence.SegmentsLength | enhanced_digital_human_generator.py:176-201 | the loop emits exactly the frames still missing, never more |
| EnhancedSequence.SegmentInPool | enhanced_digital_human_generator.py:182-198 | with at least one image every index of a segment lies in 0 to `total_images - 1` |
| EnhancedSequence.SegmentsInPool | enhanced_digital_human_generator.py:176-201 | with at least one image every index the loop emits lies in 0 to `total_images - 1` |
| EnhancedSequence.ActionSequenceShape | enhanced_digital_human_generator.py:163-221 | with variety on and a valid duration range the sequence has exactly `audio_length` indices, the trim and pad never apply, and every index is an image of the pool |
| EnhancedSequence.ActionSequenceEdges | enhanced_digital_human_generator.py:165-221 | with variety off the simple sequence is returned; with variety on an empty audio fails at `min(sequence)`, and a minimum duration above the maximum fails in `randint` |
| ScriptText.CleanContent | digital_human_paragraph_generator.py:129-131 | the cleaned paragraph holds no quote character and has no surrounding white space |
| ScriptText.RemoveQuotesDrops | digital_human_paragraph_generator.py:131 | the two `replace` calls drop every quote and keep every other character in order |
| ScriptText.CleanContentIdempotent | digital_human_paragraph_generator.py:129-131 | cleaning an already cleaned paragraph changes nothing |
| ScriptText.FallbackParagraph | digital_human_paragraph_generator.py:142-153 | a fallback paragraph holds the product text, right after the chosen template's head |
| ScriptText.GenerateParagraph | digital_human_paragraph_generator.py:93-140 | with a key and status 200 the answer is the cleaned content; in every other case it is a fallback paragraph holding the product text |
| ScriptText.DigitRun | digital_human_batch_generator.py:239 | the digit run is the longest prefix of ASCII digits |
| ScriptText.DropBulletSuffix | digital_human_batch_generator.py:240 | the bullet substitution only removes a prefix, and when it removes one what remains does not start with a space |
| ScriptText.CleanLine | digital_human_batch_generator.py:239-240 | a cleaned line has no surrounding white space |
| ScriptText.LongLines | digital_human_batch_generator.py:242-243 | keeping the long lines never adds entries |
| ScriptText.CleanLines | digital_human_batch_generator.py:238-240 | every line is cleaned on its own, in place |
| ScriptText.Take | digital_human_batch_generator.py:245 | Python's `xs[:n]` is a prefix of `xs`, of length `n` capped at `len(xs)`, or `len(xs) + n` floored at 0 for a negative `n` |
| ScriptText.ParseSentences | digital_human_batch_generator.py:233-245 | the method returns exactly the specified parse of the content |
| ScriptText.ParsedSentences | digital_human_batch_generator.py:233-245 | at most `script_length` sentences, and never more than the content has lines |
| ScriptText.KeepLongLines | digital_human_batch_generator.py:236-243 | the loop keeps exactly the cleaned lines longer than five characters, in order |
| ScriptText.LongLinesSnoc | digital_human_batch_generator.py:242-243 | one more line either is appended to the kept lines or leaves them as they are |
| ScriptText.LongLinesConcat | digital_human_batch_generator.py:242-243 | the lines kept from two parts are the kept lines of each, in order |
| ScriptText.KeptLinesConcat | digital_human_batch_generator.py:238-243 | the order of the lines survives cleaning and keeping |
| ScriptText.LongLinesMembers | digital_human_batch_generator.py:242-243 | a line is kept exactly when it is a line longer than five characters |
| ScriptText.KeptLinesMembers | digital_human_batch_generator.py:238-243 | a string is kept exactly when it is the cleaned form, longer than five characters, of one of the lines |
| ScriptText.ParsedSentencesShape | digital_human_batch_generator.py:233-245 | the parsed script has at most `script_length` entries and every entry is longer than five characters |
| ScriptText.NumberPrefixRemoved | digital_human_batch_generator.py:239-240 | a numbered line such as `3. text` loses its numeral, separator and the spaces behind them |
| ScriptText.NumeralDropped | digital_human_batch_generator.py:239 | the numeral pattern takes the digits, the separator and the spaces behind it |
| ScriptText.DigitRunOf | digital_human_batch_generator.py:239 | the greedy `\d+` takes all leading digits and stops at the first non-digit |
| ScriptText.BulletKeepsNumber | digital_human_batch_generator.py:239-240 | a bulleted line loses its bullet and the spaces behind it |
| ScriptText.LStripSpaces | digital_human_batch_generator.py:239 | the trailing `\s*` removes exactly the leading spaces |
| ScriptText.FallbackScriptShape | digital_human_batch_generator.py:247-260 | the fallback script has ten sentences, each longer than five characters |
| ScriptText.GenerateScript | digital_human_batch_generator.py:179-231 | with a key and status 200 the script is the parsed content; in every other case it is the fallback script |
| ScriptText.ScriptSentencesLong | digital_human_batch_generator.py:179-260 | whatever the reply, every sentence of the script is longer than five characters |
| ScriptText.StripAll | live_stream_system.py:386 | every piece is stripped on its own, in place |
| ScriptText.NonEmpty | live_stream_system.py:386 | dropping the empty pieces never adds entries |
| ScriptText.NonEmptyMembers | live_stream_system.py:386 | a piece survives exactly when it is not empty |
| ScriptText.SplitSentencesClean | live_stream_system.py:382-386 | no sentence is empty, starts or ends with white space, or holds a terminator |
| ScriptText.SplitSentences | live_stream_system.py:382-386 | at most one sentence per piece between terminators |
| ScriptText.SplitSentencesAt | live_stream_system.py:385 | a terminator splits: the sentences before it come first, then those after it |
| ScriptText.SplitSentencesSingle | live_stream_system.py:385-386 | a text without terminators is one stripped sentence, or none when it is blank |
| ScriptText.ClientKey | live_stream_system.py:58-60 | construction fails with `ValueError` exactly when the key is missing or empty, and keeps the key otherwise |
| ScriptText.LongContent | live_stream_system.py:67-85 | a reply that does not raise gives its content; a failure gives a message naming the prompt |
| ScriptText.LongContentOrEmpty | live_stream_windows.py:63-89 | a reply that does not raise gives its content; a failure gives the empty string |
| PyText.Strip | digital_human_paragraph_generator.py:129 | `str.strip()` leaves no white space at either end and never lengthens the string |
| PyText.StripBySlice | env_utils.py:20 | a stripped string is a contiguous slice of the input |
| PyText.StripByIdempotent | digital_human_paragraph_generator.py:131 | stripping twice is stripping once |
| PyText.StripChar | env_utils.py:24 | `s.strip(c)` leaves no `c` at either end |
| PyText.Lower | digital_human_batch_generator.py:151 | `str.lower()` keeps the length and maps each ASCII capital to its small letter, keeping every other character |
| PyText.RemoveChar | digital_human_paragraph_generator.py:131 | `s.replace(c, '')` leaves no `c`, and leaves a string without `c` as it is |
| PyText.ReplaceAllNoMatch | digital_human_batch_generator.py:329 | `replace` on a string without the pattern changes nothing |
| PyText.ReplaceWavSuffix | digital_human_batch_generator.py:333 | on a path whose only `.wav` is its suffix, `replace('.wav', '_hu.npy')` swaps just the suffix |
| PyText.SplitWhere | digital_human_batch_generator.py:235 | `str.split(c)` and `re.split` on a character class always give at least one piece, the empty string giving `['']` |
| PyText.ReplaceAll | hubert_torch28_fix.py:188 | `str.replace` with a replacement at least as long as the pattern never shortens the string |
| PyText.IntText | agent/dh_streamer.py:122 | `str(n)` is non-empty, starts with a digit exactly when `n` is not negative, and is digits after its first character |
| PyText.SplitWhereParts | digital_human_batch_generator.py:235 | `split` loses only the separators, keeps everything else in order and gives one piece more than there are separators |
| PyText.SplitPieceNoSeparator | digital_human_batch_generator.py:235 | no piece of a split holds the separator |
| PyText.SplitJoin | digital_human_batch_generator.py:235 | joining the pieces of `s.split(c)` with `c` gives `s` back |
| PyText.Digits | digital_human_batch_generator.py:708 | `str(n)` of a natural number is a non-empty run of digits |
| PyText.ZeroPad | digital_human_batch_generator.py:708 | `f"{n:06d}"` is all digits and has the width, or more when the number needs more, never truncated |
| PyText.ZeroPadRoundTrip | digital_human_batch_generator.py:708 | the padded field reads back as the number it was made from |
| PyText.ZeroPadInjective | digital_human_batch_generator.py:708 | different counters give different padded fields |
| EnvFile.Unquote | env_utils.py:24 | the cleaned value is no longer than the raw one and has no single quote at either end |
| EnvFile.ParseEnvLine | env_utils.py:20-24 | a line assigns exactly when, once stripped, it is non-empty, is not a comment and holds an `=`; the key then holds no `=` |
| EnvFile.Assignments | env_utils.py:19-24 | one parsed assignment per line, in file order |
| EnvFile.MissingVars | env_utils.py:36-40 | a name is reported missing exactly when it is required and unset or empty |
| EnvFile.Environment.LoadEnvFile | env_utils.py:10-31 | a missing file answers `False` and leaves the environment alone; otherwise the environment and the answer are those of applying the lines in order, the first raising line ending the load with `False` |
| EnvFile.Environment.CheckRequiredEnv | env_utils.py:33-50 | the check succeeds exactly when no required name is missing, that is when `DEEPSEEK_API_KEY` is set and not empty |
| EnvFile.MissingVarsStep | env_utils.py:38-40 | each turn of the loop appends the current name exactly when it is missing |
| EnvFile.IgnoredLine | env_utils.py:21 | a blank, comment or `=`-less line changes nothing |
| EnvFile.SplitsAtFirstEquals | env_utils.py:22-24 | a line is cut at its first `=`, later `=` characters belonging to the value |
| EnvFile.SingleQuotesOutside | env_utils.py:24 | a value wrapped in single quotes loses them, keeping any double quotes inside |
| EnvFile.UnassignedKept | env_utils.py:19-25 | a variable no line assigns keeps its value, or its absence |
| EnvFile.LastAssignmentWins | env_utils.py:19-28 | after a successful load a name holds the value of the last assignment to it |
| EnvFile.LastLineWins | env_utils.py:19-28 | after a successful load a name holds the value of the last line assigning it |
| EnvFile.FailureHasCause | env_utils.py:29-31 | a failed load of an existing file comes from a line whose assignment raises |
| CliArgs.Dirname | digital_human_integrated.py:87-88 | `os.path.dirname` is a prefix of the path |
| CliArgs.DirnameBareName | digital_human_integrated.py:87 | a bare file name has no directory part, so the output check is skipped |
| CliArgs.DirnameOfJoin | digital_human_integrated.py:88 | the directory part of `d/f` is `d` |
| CliArgs.ValidateIntegrated | digital_human_integrated.py:69-97 | the arguments are accepted exactly when the config exists, single mode has a text, the port is in 1 to 65535 and the output directory exists or can be made; a rejection names the first failed check |
| CliArgs.ValidateAsync | digital_human_integrated_async.py:157-179 | the arguments are accepted exactly when the config exists, single mode has a text, the port is valid, the stream timeout is at least 10 and the queue size at least 1; a rejection names the first failed check |
| CliArgs.ValidatorsShareChecks | digital_human_integrated_async.py:157-169 | the two validators reject for the shared checks in exactly the same cases, with the same reason |
| CliArgs.StreamPassed | digital_human_integrated.py:332-362 | the flag each branch passes to its runner: `--no-stream` always clears it; in file mode it holds only with `--enable-stream`, in single and continuous mode unless `--no-stream` |
| CliArgs.StreamsInRun | digital_human_integrated.py:99-263 | whether the run streams: single and file mode overwrite the config with the flag passed; continuous mode only clears it, so it streams iff the flag passed and the config file's `enable_streaming` both hold |
| CliArgs.StatusMatchesRun | digital_human_integrated.py:321-362 | the logged status is the flag passed, and it differs from what the run does exactly in continuous mode without `--no-stream` under a config file whose `enable_streaming` is false |
| PyQueue.OfferAllDropNewestStep | live_stream_system.py:398-400 | offering `xs[..k+1]` is offering `xs[..k]` and then `xs[k]`, as a loop over the items does |
| PyQueue.OfferAllEvictOldestStep | live_stream_windows.py:247-248 | offering `xs[..k+1]` under eviction is offering `xs[..k]` and then `xs[k]` |
| PyQueue.OfferDropNewest | live_stream_system.py:336-341 | the queue is unchanged exactly when it is full; otherwise the item joins at the end; a queue within its bound stays within it |
| PyQueue.OfferEvictOldest | live_stream_windows.py:173-183 | the item ends the queue; a full queue keeps its length and any other grows by one; a queue within its bound stays within it |
| PyQueue.Oldest | live_stream_system.py:333 | the oldest `maxsize` items fit the bound and are a prefix of everything offered |
| PyQueue.Newest | live_stream_windows.py:170 | the newest `maxsize` items fit the bound and are a suffix of everything offered |
| PyQueue.DropNewestKeepsOldest | live_stream_system.py:336-341 | a queue that drops new items on `Full` holds the oldest `maxsize` items of everything offered, in order |
| PyQueue.EvictOldestKeepsNewest | live_stream_windows.py:173-183 | a queue that evicts its oldest item on `Full` holds the newest `maxsize` items of everything offered, in arrival order |
| PyQueue.EvictStep | live_stream_windows.py:176-181 | one evicting offer to the newest items of a history gives the newest items of the longer history |
| PyQueue.OfferBounds | live_stream_windows.py:173-197 | both policies keep a bounded queue within its bound; an evicting full queue stays exactly full, a dropping full queue stays as it is |
| PyQueue.Queue.Put | live_stream_system.py:339-341 | `put` fails exactly on a full queue and then changes nothing; otherwise it appends the item |
| PyQueue.Queue.Get | live_stream_system.py:343-348 | `get` on an empty queue answers `None`; otherwise it removes and answers the oldest item |
| PyQueue.Queue.constructor | live_stream_system.py:333-334 | `queue.Queue(maxsize)` starts empty with the given bound |
| LiveStream.DropNewestBuffer.constructor | live_stream_system.py:332-334 | both queues start empty with the bound `max_size` |
| LiveStream.DropNewestBuffer.AddText | live_stream_system.py:336-341 | a text is appended unless the text queue is full, when it is dropped; the video queue is untouched |
| LiveStream.DropNewestBuffer.GetText | live_stream_system.py:343-348 | the oldest text, removed, or `None` on an empty queue; the video queue is untouched |
| LiveStream.DropNewestBuffer.AddVideo | live_stream_system.py:350-355 | a video is appended unless the video queue is full, when it is dropped; the text queue is untouched |
| LiveStream.DropNewestBuffer.GetVideo | live_stream_system.py:357-362 | the oldest video, removed, or `None` on an empty queue |
| LiveStream.AddContentSentences | live_stream_system.py:394-400 | after one round the text queue holds the oldest `max_size` of what it held followed by the sentences of the content |
| LiveStream.VideoPathInjective | live_stream_system.py:423 | different counters name different video files |
| LiveStream.AudioPath | live_stream_system.py:420 | `temp/audio_`, at least six digits, then `.wav` |
| LiveStream.VideoPath | live_stream_system.py:423 | `temp/video_`, at least six digits, then `.mp4` |
| LiveStream.GenerateOne | live_stream_system.py:418-434 | the files are named after the counter; the counter advances and the video is queued only when both audio and video were made |
| LiveStream.CountersUsed | live_stream_system.py:411-426 | one counter value per text of a run |
| LiveStream.MadeCountersIncrease | live_stream_system.py:411-426 | a made video's counter is below the counter of every later text, so made videos never share a file name |
| LiveStream.CountersAtLeast | live_stream_system.py:411 | no text of a run uses a counter below the starting one |
| LiveStream.FailureReusesNames | live_stream_system.py:421-426 | after a failed text the next text is named after the same counter, so it reuses the same audio path |
| LiveStream.CountersStep | live_stream_system.py:424-426 | the counter grows by one after a made video and stays put otherwise |
| LiveStream.EvictOldestBuffer.constructor | live_stream_windows.py:167-170 | the video queue is bounded by `max_size`, the text queue by twice that, and both start empty |
| LiveStream.EvictOldestBuffer.AddText | live_stream_windows.py:173-183 | a full text queue loses its oldest text and gains the new one |
| LiveStream.EvictOldestBuffer.AddVideo | live_stream_windows.py:185-197 | a full video queue loses its oldest video, whose path is answered for removal, and gains the new one; a queue with room only gains it |
| LiveStream.EvictOldestBuffer.GetText | live_stream_windows.py:206-211 | the oldest text, removed, or `None` on an empty queue |
| LiveStream.EvictOldestBuffer.GetVideo | live_stream_windows.py:199-204 | the oldest video, removed, or `None` on an empty queue |
| LiveStream.GenerateContentBatch | live_stream_windows.py:232-248 | an empty answer adds nothing; otherwise the text queue holds the newest `2 * max_size` of what it held followed by the sentences |
| LiveStream.RefillRound | live_stream_windows.py:432-437 | content is regenerated only when fewer than five texts wait |
| LiveStream.SpeechClient.SynthesizeAudio | live_stream_windows.py:98-127 | a cached text answers `True` without running the synthesizer; otherwise the answer is `True` exactly on return code 0, and only then is the path cached |
| LiveStream.SpeechClient.constructor | live_stream_windows.py:96 | the audio cache starts empty |
| LiveStream.SystemOutput | live_stream_system.py:436-447 | an output starts exactly for `udp`, `rtmp`, `file` and `http_flv`; any other mode starts nothing |
| LiveStream.WindowsOutput | live_stream_windows.py:279-288 | the Windows system starts an output exactly for `udp`, `file` and `rtmp` |
| LiveStream.OutputsAgree | live_stream_windows.py:279-288 | every mode the Windows system accepts starts the same output on Linux, and `http_flv` is the only mode just Linux accepts |
| Producers.EnqueueUntilFull | digital_human_optimized.py:555-565 | the queue gains, in order, the prefix of the batch put before the first `Full` or lowered flag, and `added` is its length |
| Producers.EnqueueWhileRunning | digital_human_deepseek.py:501-508 | the queue gains what the while-running loop puts before the first `Full` |
| Producers.EnqueuedIsPrefix | digital_human_mp4_generator.py:490-500 | the producer puts a prefix of the batch, in order, with the flag up throughout, and it stops only when the batch ran out, the flag was down or the queue was full |
| Producers.EnqueuedFrom | digital_human_mp4_generator.py:490-500 | the queue after the loop starts with the queue before it: nothing is taken out |
| Producers.EnqueuedFits | digital_human_mp4_generator.py:495 | the text queue never exceeds its bound |
| Producers.ProducersAgree | digital_human_deepseek.py:501-508 | when the flag once down stays down, the DeepSeek loop enqueues exactly what the optimized loop does |
| Producers.SkipsWhenDown | digital_human_deepseek.py:502 | once the flag is down the DeepSeek loop puts nothing more |
| Producers.FlagBackUpDiffers | digital_human_optimized.py:557-558 | with a flag that is down and then up again, the optimized loop stops where the DeepSeek loop goes on |
| Producers.BootstrapScripts | digital_human_optimized.py:518-524 | five start-up scripts, each starting with the product information |
| Producers.Bootstrap | digital_human_optimized.py:526-531 | the queue ends with the oldest `maxsize` of what it held followed by the five scripts |
| Producers.ProduceBatch | digital_human_batch_generator.py:676-681 | an empty batch is never queued; a non-empty batch becomes one item, dropped on a full queue |
| Producers.UniqueIdSuffix | agent/dh_generator.py:434-441 | the last `_` field of an id is the counter padded to three digits, and reads back as the counter |
| Producers.UniqueId | agent/dh_generator.py:434-441 | an id starts with its timestamp and ends with three digits |
| Producers.UniqueIdsIncrease | agent/dh_generator.py:434-441 | ids made with a larger counter carry a larger last field |
| Producers.BaseNameInjective | digital_human_mp4_generator.py:521-528 | base names built from different counters differ, whatever the clock and thread fields |
| Producers.BaseName | digital_human_mp4_generator.py:521-528 | a base name starts with the prefix, followed by at least six digits of the counter |
| Producers.FileCounter.constructor | agent/dh_generator.py:434-441 | the counter starts at 0 |
| Producers.FileCounter.GenerateUniqueId | agent/dh_generator.py:434-441 | one call raises the counter by exactly one and names the id after the new value |
| Producers.FileCounter.NextBaseName | digital_human_batch_generator.py:702-708 | one call raises the counter by exactly one and names the files after the new value |
| Streamer.Kept | agent/dh_streamer.py:75-78 | the kept clips are among the items, in order, each with a non-empty video path that exists |
| Streamer.KeptAppend | agent/dh_streamer.py:72-81 | keeping works item by item: the clips kept from two runs of items are those of each, in order |
| Streamer.Consumed | agent/dh_streamer.py:72-81 | the refill takes no more items than the queue holds |
| Streamer.RefillStopsAtCapacity | agent/dh_streamer.py:72-81 | the refill never fills the buffer beyond 5 clips, stops with the buffer full or the queue drained, and takes no item once the buffer is full |
| Streamer.KeptPrefixCount | agent/dh_streamer.py:75-78 | the clips kept from the first `m` items are the first item's share plus those kept from the `m - 1` after it |
| Streamer.RefillStep | agent/dh_streamer.py:73-79 | one turn of the refill loop appends the item when it is playable and counts it as taken |
| Streamer.RefillBuffer | digital_human_optimized.py:354-363 | the refill removes exactly the consumed items from the queue and appends the playable ones among them to the buffer |
| Streamer.UrlRoundTrip | agent/dh_streamer.py:122 | the target URL reads back as the host, port and query it was built from |
| Streamer.UdpUrl | agent/dh_streamer.py:122 | the URL starts with `udp://`, then the host, then `:` |
| Streamer.ParseUdpUrl | agent/dh_streamer.py:122 | a URL it accepts starts with `udp://` and the host it reads, up to the first `:`, so that host holds no `:` |
| Streamer.InputsSkip | agent/dh_streamer.py:105-123 | options without `-i` contribute no input file |
| Streamer.InputArgs | agent/dh_streamer.py:109-110 | every input file comes with its `-i` |
| Streamer.InputArgsRead | agent/dh_streamer.py:109-110 | the files given with `-i` read back as the input files, in order |
| Streamer.CommandInputs | agent/dh_streamer.py:105-137 | a command's input files are exactly those given with `-i`, its length is fixed by its parts, it starts with its leading options and ends with its target |
| Streamer.StreamCommand | agent/dh_streamer.py:103-137 | the audio is a second input exactly when its path is non-empty and exists, the command has 31 or 20 arguments, `-stream_loop` is `-1` exactly when looping is set, and the last argument is the UDP target |
| Streamer.DirectCommand | digital_human_deepseek.py:368-396 | the audio is a second input exactly when its path is non-empty and exists, the command has 25 or 14 arguments, no looping option, and the UDP target last |
| Streamer.BufferedStreamer.constructor | agent/dh_streamer.py:39-47 | a new streamer is idle, with no process, an empty buffer and nothing streamed |
| Streamer.BufferedStreamer.StartStream | agent/dh_streamer.py:49-67 | a second start changes nothing; a first start marks the streamer streaming and starts a worker with an empty buffer |
| Streamer.BufferedStreamer.StartStreamUnguarded | digital_human_optimized.py:343-349 | the optimized start always marks the streamer streaming with an empty buffer |
| Streamer.BufferedStreamer.StopStream | agent/dh_streamer.py:161-171 | stopping an idle streamer changes nothing; stopping a streaming one drops the flag and ends the running process |
| Streamer.BufferedStreamer.StopStreamUnguarded | digital_human_optimized.py:447-451 | the optimized stop always drops the flag and ends the running process |
| Streamer.BufferedStreamer.Refill | digital_human_optimized.py:354-363 | the streamer's buffer is refilled as the refill function says, and the queue keeps what was not taken |
| Streamer.BufferedStreamer.StreamVideo | agent/dh_streamer.py:97-159 | the clip's command is the one the command function builds, and no process is left running afterwards |
| Streamer.BufferedStreamer.WorkerStep | agent/dh_streamer.py:69-89 | one worker turn refills and then streams the front clip of the buffer, removing it, or streams nothing when the buffer stays empty |
| Streamer.DirectStreamer.constructor | digital_human_deepseek.py:332-335 | a new direct streamer is idle |
| Streamer.DirectStreamer.StartStream | digital_human_deepseek.py:337-340 | starting sets the streaming flag |
| Streamer.DirectStreamer.StopStream | digital_human_deepseek.py:408-410 | stopping clears the streaming flag |
| Streamer.DirectStreamer.WorkerStep | digital_human_deepseek.py:342-357 | one turn takes the next item; it is streamed exactly when it is playable, and the command is the direct command for it |
| StreamTasks.TaskId | agent/dh_streamer_async.py:130 | every id starts with `stream_` |
| StreamTasks.TaskIdInjective | agent/dh_streamer_async.py:130 | two ids are equal exactly when the tasks were added in the same millisecond and their path hashes agree modulo 10000 |
| StreamTasks.Launched | agent/dh_streamer_async.py:187-219 | a task starts streaming from `now` exactly when its video exists and the spawn succeeds; otherwise it fails with a message, its other fields unchanged |
| StreamTasks.Prefix | agent/dh_streamer_async.py:248 | `s[:200]` is a prefix of at most 200 characters, and the whole of a shorter string |
| StreamTasks.Checked | agent/dh_streamer_async.py:231-272 | an unfinished task is left as it is; a finished one gets a terminal status and ends at `now`: completed on exit code 0, failed with the clipped error text on another code, timed out past the timeout |
| StreamTasks.Verdicts | agent/dh_streamer_async.py:228-272 | the monitor judges only active tasks |
| StreamTasks.MonitorKeepsTasks | agent/dh_streamer_async.py:274-277 | a monitor pass loses no task and removes none from the completed map; every active task stays as it was or is completed at `now` |
| StreamTasks.MonitorKeepsInvariants | agent/dh_streamer_async.py:221-285 | a monitor pass keeps every task filed under its own id, the active ones streaming and the completed ones done, and never grows the active map |
| StreamTasks.VerdictsAreDone | agent/dh_streamer_async.py:237-270 | every verdict is a terminal task filed under its own id |
| StreamTasks.ScannedIsVerdicts | agent/dh_streamer_async.py:231-272 | the scan's result is the verdict map whenever it agrees with the verdicts key by key |
| StreamTasks.AsyncStreamer.constructor | agent/dh_streamer_async.py:65-82 | a new streamer is idle, with no pending, active or completed task |
| StreamTasks.AsyncStreamer.Start | agent/dh_streamer_async.py:84-100 | a second start changes nothing; the streamer is running afterwards |
| StreamTasks.AsyncStreamer.Stop | agent/dh_streamer_async.py:102-126 | stopping clears the running flag and leaves every task and map as it was |
| StreamTasks.AsyncStreamer.AddStreamTask | agent/dh_streamer_async.py:128-145 | every call appends one PENDING task with the computed id and returns that id; no map changes |
| StreamTasks.AsyncStreamer.GetTaskStatus | agent/dh_streamer_async.py:147-153 | the answer is `None` exactly for an unknown id, the active task when there is one, and otherwise a terminal completed task |
| StreamTasks.AsyncStreamer.StartStreamTask | agent/dh_streamer_async.py:187-219 | a started task is filed among the active tasks, a failed one among the completed tasks, and the command is built only for an existing video |
| StreamTasks.AsyncStreamer.SchedulerStep | agent/dh_streamer_async.py:168-179 | with room for another stream the oldest pending task is started; with none, or with no pending task, nothing changes, so the active count never exceeds the maximum |
| StreamTasks.AsyncStreamer.MonitorStep | agent/dh_streamer_async.py:225-279 | one monitor iteration moves exactly the finished tasks, with their verdicts, to the completed map |
| StreamTasks.ScanActive | agent/dh_streamer_async.py:228-272 | the scan answers a verdict for exactly the finished active tasks, each the checked task |
| StreamTasks.MoveFinished | agent/dh_streamer_async.py:275-277 | the finished ids leave the active map and their tasks are filed, last write winning, in the completed map |
| StreamTasks.PendingTasks | agent/dh_streamer_async.py:338-346 | one PENDING task per playable pair, each named after its own millisecond and path |
| StreamTasks.PendingTasksSnoc | agent/dh_streamer_async.py:345 | one more pair adds one more pending task at the end |
| StreamTasks.QueueProcessor | agent/dh_streamer_async.py:338-349 | the video queue is drained and every playable pair, in order, becomes a pending stream task |
| StreamTasks.EnqueueStep | agent/dh_streamer_async.py:345 | handing one more playable pair to `add_stream_task` extends the pending tasks by its task |
| StreamTasks.KeptStep | agent/dh_streamer_async.py:341-344 | reading one more item keeps it exactly when it is playable |
| StreamTasks.StreamManager.constructor | digital_human_integrated_async.py:72-90 | the manager's streamer always gets three concurrent streams, whatever the queue size; the statistics start at zero |
| StreamTasks.StreamManager.AddStreamTask | digital_human_integrated_async.py:103-114 | every call adds one pending task to the streamer and one to `total_tasks` |
| StreamTasks.ReportsNoCompleted | digital_human_integrated_async.py:120-124 | the report's `completed_tasks` is always 0, so it differs from the streamer's count whenever that is not 0 |
| StreamTasks.StreamManager.QueueInfo | digital_human_integrated_async.py:120-124 | `get_queue_info` as written: the streamer's keys and the statistics' keys, with every statistics key showing the manager's value over the streamer's |
| StreamTasks.StreamManager.QueueInfoFixed | digital_human_integrated_async.py:120-124 | the corrected overlay: the same keys, with every streamer key showing the streamer's value |
| StreamTasks.FixedReportsCompleted | digital_human_integrated_async.py:120-124 | with the streamer's counts laid over the statistics, the report carries the streamer's completed and active counts and the manager's total |
| HubertChunks.FirstChannel | hubert_torch28_fix.py:97-98 | mono audio is kept; two-channel audio gives its first channel, one sample per frame, and fails exactly when some frame has no channel |
| HubertChunks.NumIter | hubert_torch28_fix.py:110-111 | `num_iter` is the number of whole 320000-sample clips in the input |
| HubertChunks.ExpectedT | hubert_torch28_fix.py:112 | `expected_T` is the floor of `(n - 80) / 320` |
| HubertChunks.ChunkSpan | hubert_torch28_fix.py:116-121 | chunk `i` starts at `clip_length * i` and reaches `clip_length - stride + kernel` samples further, the first chunk included |
| HubertChunks.ChunksOverlap | hubert_torch28_fix.py:116-121 | consecutive chunks overlap by `kernel - stride` samples |
| HubertChunks.TailStart | hubert_torch28_fix.py:127-130 | the tail starts past the whole clips, at 0 without any, and is shorter than one clip |
| HubertChunks.ChunksCoverClips | hubert_torch28_fix.py:115-125 | every sample before the tail lies in one of the clip chunks |
| HubertChunks.Window | hubert_torch28_fix.py:123 | slicing clips the chunk's end to the input length |
| HubertChunks.ChunkStates | hubert_torch28_fix.py:115-125 | after `m` turns `res_lst` holds the hidden states of the first `m` chunks, in order |
| HubertChunks.States | hubert_torch28_fix.py:113-135 | one hidden state per clip, and one more for a tail of at least `kernel` samples |
| HubertChunks.StatesEmptyIff | hubert_torch28_fix.py:127-137 | `res_lst` is empty, and `torch.cat` raises, exactly for fewer than 400 samples |
| HubertChunks.CatAppend | hubert_torch28_fix.py:137 | concatenating two lists of states is concatenating their concatenations |
| HubertChunks.Head | hubert_torch28_fix.py:144 | `x[:e]` is a prefix of `x`, of length `e` for an `e` in range, all of `x` beyond it |
| HubertChunks.ZeroRows | hubert_torch28_fix.py:142 | the padding is `k` zero rows |
| HubertChunks.Reconcile | hubert_torch28_fix.py:139-146 | within one frame of `expected_T` the result has exactly `expected_T` rows, the original ones first and zero rows after them; further away it is left as it is |
| HubertChunks.HubertFromSpeech | hubert_torch28_fix.py:107-146 | the features fail exactly for fewer than 400 samples, and are otherwise the reconciled concatenation of the chunk states |
| HubertChunks.ExtractHubert | hubert_torch28_fix.py:113-146 | the chunk loop with its tail and reconciliation computes exactly the specified features |
| HubertChunks.Reach | hubert_torch28_fix.py:123 | the first `m` chunks never reach past the input |
| HubertChunks.ChunkRowsStep | hubert_torch28_fix.py:115-125 | the frames up to chunk `m` are those up to chunk `m - 1` plus those of chunk `m` |
| HubertChunks.ExpectedSplit | hubert_torch28_fix.py:112-135 | `expected_T` splits into the frames of the clip chunks and those of the tail |
| HubertChunks.ChunkWindow | hubert_torch28_fix.py:120-123 | every clip chunk holds at least `kernel` samples and ends where the chunk reaches |
| HubertChunks.ChunkFrames | hubert_torch28_fix.py:115-125 | with a front end of ideal frame count, clip chunk `m - 1` gives the frames of its window up to the reach |
| HubertChunks.ChunkRows | hubert_torch28_fix.py:115-125 | with a front end of ideal frame count, the first `m` chunks give the frames up to their reach |
| HubertChunks.IdealCountIsExpected | hubert_torch28_fix.py:137-146 | with a front end of ideal frame count the concatenated states already have `expected_T` rows, so the reconciliation changes nothing |
| HubertChunks.ReconcileExact | hubert_torch28_fix.py:140-144 | a result with exactly `expected_T` rows is left as it is |
| HubertChunks.MakeEven | hubert_torch28_fix.py:148-154 | the result has an even number of rows, is a prefix of the input, and lacks exactly the last row of an odd count |
| HubertChunks.Pairs | hubert_torch28_fix.py:185 | `reshape(-1, 2, 1024)` groups consecutive rows in pairs, half as many as rows |
| HubertChunks.PairsRoundTrip | hubert_torch28_fix.py:185 | reading the pairs row by row gives the rows back, so the reshape loses and reorders nothing |
| HubertChunks.OutputPathNoWav | hubert_torch28_fix.py:188 | a name without `.wav` is its own output path |
| HubertChunks.OutputPathSuffix | hubert_torch28_fix.py:188 | a name whose only `.wav` is its suffix gets `_hu.npy` in its place |
| HubertChunks.OutputPath | hubert_torch28_fix.py:188 | the output path is never shorter than the wav name, since `_hu.npy` is longer than `.wav` |
| HubertChunks.SavedFeatures | hubert_torch28_fix.py:97-189 | the saved pairs, read row by row, are the even-length features of the first channel after the wav2vec2 processor, which is an opaque parameter |
| SimpleHubert.Tile | simple_hubert.py:49 | `np.tile` of a row `k` times is `k` times as long |
| SimpleHubert.TileIndex | simple_hubert.py:49 | column `j` of the tiled row is coefficient `j mod 13` |
| SimpleHubert.Widen | simple_hubert.py:46-54 | a widened row has 1024 columns |
| SimpleHubert.WidenColumns | simple_hubert.py:46-54 | column `j` is coefficient `j mod 13` up to column 1014 and coefficient `j - 1014` after it |
| SimpleHubert.SimpleFeatures | simple_hubert.py:43-61 | the rows are widened, an odd last row is dropped and the rest is paired in order |
| SimpleHubert.SimpleFeaturesShape | simple_hubert.py:57-61 | every saved row is 1024 wide and twice the pair count is the frame count rounded down to even |
| SimpleHubert.SimpleSaved | simple_hubert.py:25-64 | a success holds half the MFCC frames of the first channel; a failure comes from the channel selection or a row that is not 13 wide |

## Left out

- HTTP calls (DeepSeek chat, GPT-SoVITS speech) are oracle inputs. The model keeps only what the code does with the answer: status checks, quote cleanup, fallbacks and empty content.
- Subprocesses (ffmpeg, ffprobe, `hubert.py`, `wenet_infer.py`, the generated inference scripts) are oracle results: a return code, an exit status, a stderr text. Only the command lines built for ffmpeg are modelled as values.
- Generated inference scripts are produced by string replacement in the batch and enhanced generators. That text editing is not modelled; the frame logic those scripts run is (`BatchActions`, `EnhancedSequence`, `InferenceLoop`).
- File-system effects are values or parameters: existence, reads, `np.load`/`np.save`, `cv2.imread`, video writers, `os.remove`, `makedirs`, `shutil.copy2`. `os.makedirs` in argument validation is a boolean "could be created".
- Threads, locks, queue timeouts, sleeps and joins are not modelled. Each loop iteration of a worker is one sequential step. The unlocked audio counters of the optimized and DeepSeek generators are therefore race-free here.
- The async monitor iterates a dict that the scheduler also mutates. In the model each scan sees one snapshot.
- Randomness: `random.choice`, `random.randint` and `random.random() < p` become draw functions from a draw number to a value. `choice(xs)` is `xs[raw % len(xs)]` and `randint(a, b)` is `a + raw % (b - a + 1)`.
- Hashes and clocks: Python `hash()` and the md5 text hash are parameters, and `time.time()` is a millisecond count. Two tasks added in the same millisecond with equal hash residues would get the same id; `StreamTasks.TaskIdInjective` states exactly when.
- Floating point: the ease curve of `_generate_smooth_sequence` is an arbitrary value per step, clamped as in the code (`EnhancedSequence.Smooth`). `int(s * 1.2)` is `6 * s / 5`. Parsing a landmark token as `float32` and casting it to `int32` is an arbitrary parameter (`Landmarks.CoordParser`), which gives a number or none.
- The batch generator's non-zero character ratio `int(len(s) / total_chars * 100)` is an oracle per sentence (`BatchActions.FrameEstimate`). Only the minimum of 10 and the zero-total branch are exact.
- `cv2.resize` and `cv2.rectangle` pixel values are opaque functions with shape contracts. So are the torch forward pass, tensor reshape and permute, HuBERT through transformers, wav2vec2 input normalisation, and librosa resampling and MFCC.
- String builtins are modelled only as far as the source uses them. `lower()` and `\d` cover ASCII only; `strip()` uses Python's Unicode whitespace set (`str.isspace`).
- The `.env` loader's `UnicodeDecodeError` path is not modelled; a file is a sequence of lines.
- `hubert_fixed.py` is modelled by the same `HubertChunks` definitions as `hubert_torch28_fix.py`, because its chunk bounds, tail rule, length fix and even-row trim are the same code.
- FeatureWindow.GetAudioFeatures: its own contract states only the bound of 8 rows; the row-by-row layout is stated by `FeatureWindow.WindowLayout`.
- InferenceLoop.Outcomes: its own contract states only the number of outcomes; what each frame does is stated by `InferenceLoop.OutcomeAt`.
- EnhancedSequence.GetActionSequence: requires `min_action_duration >= 1` when variety is on. With a minimum of 0 or below, a duration draw can be 0 or negative. On a one-image range that gives the empty segment `[start_img] * duration` and leaves `frame_idx` where it was. On a wider range `_generate_smooth_sequence` still returns one index, one more than the drawn 0. The source's loop never ends when, from some turn on, every turn draws such a duration on a one-image range. The draws are arbitrary functions here, so without the bound the model cannot prove that the loop ends. The defaults are 3 and 8.
- InferenceLoop.ImprovedFrame: the alarm can land only inside the per-frame `try`, before `video_writer.write`. Two other cases are not modelled. An alarm during `cleanup_gpu_memory()` on frames with `i % 100 == 0` comes after the write, so the frame stays in the video and is counted both as processed and as skipped. An alarm outside the `try`, during the loop's own step, reaches `except TimeoutError` and `main` returns 1.
- `unet.py` is not part of this model. inference.py builds `Model(6, mode)` before its loop; if that raises for an unknown `--asr`, the script stops there, earlier than the `video_writer` error `InferenceLoop.PlainInference` records. Either way it writes no frame.
- FaceBox.CropBox: the empty-crop check after the width and height test is not a separate branch. The accepted box has `xmin < xmax` and `ymin < ymax` inside the image, so that check cannot fire.
- The whole-program wiring is not modelled: system classes that only start threads, config loading, network discovery, and the interactive test and diagnosis scripts.

## Findings

| source | as written | input that shows it | evidently intended | confidence | as-written member | corrected member |
|---|---|---|---|---|---|---|
| inference_improved.py:273-290 | the alarm raises `TimeoutError`, a subclass of `Exception`, inside the per-frame `try`; the per-frame `except Exception` catches it, skips the frame and goes on, and `main` returns 0 | an alarm that fires while frame `k` is processed | the timeout handler stops the run and `main` returns 1 | not executed | InferenceLoop.TimeoutIsSwallowed | InferenceLoop.TimedRunStops |
| datasetsss.py:233-237 | after ten failed attempts the hubert dummy audio is `zeros(32, 32, 32)`, while a real hubert sample is reshaped to `(16, 32, 32)` at line 223 | a dataset item whose ten attempts all fail, in hubert mode | the dummy audio has the real sample's shape `(16, 32, 32)` | not executed | TrainingData.HubertDummyDiffers | TrainingData.FixedDummyShapes |
| digital_human_integrated_async.py:120-124 | `queue_info.update(self.stats)` puts the manager's `completed_tasks`, which nothing increments after line 89, over the streamer's real count | any run in which a task completes | the report shows the streamer's completed count | not executed | StreamTasks.ReportsNoCompleted | StreamTasks.FixedReportsCompleted |
