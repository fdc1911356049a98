# tredparse read classification and signal extraction, in Dafny

This project models the evidence-extraction engine of tredparse
(`tredparse/bam_parser.py`), which looks at short reads aligned around a
short tandem repeat locus and counts the reads that span it, enter it from
one flank, or sit wholly inside it, for every hypothesised repeat unit count.

- `dna.dfy` (module `Dna`): the complement table and `rc`.
- `overlap.dfy` (module `Overlap`): the alignment record and `get_hangs`.
- `counts.dfy` (module `Counts`): the `defaultdict(int)` count maps, their
  increment, and `sum` and `max` over their values.
- `classifier.dfy` (module `Classifier`): `max_units`, the reference bank of
  `_buildDB`, the tag rule, the candidate list and winner of `_parseReadSW`.
- `records.dfy` (module `Records`): the read record, the locus, and the
  alignment file's `fetch` and `test_fetch` as function parameters.
- `scanner.dfy` (module `Scanner`): class `BamParser` with its count table
  and details list (`__init__`, `_buildDB`, `_parseReadSW`, `parse`) and
  the FDP/PDP/RDP summaries of `BamParserResults`.
- `pairedspan.dfy` (module `PairedSpan`): class `PEextractor` and
  `get_target_length`.
- `depth.dfy` (module `Depth`): the Y-panel row selection of
  `BamDepth.get_Y_depth` and `BamReadLen.readlen`.

The local aligner is a function parameter `align(query, reference,
min_score, min_len)` returning an optional alignment. The alignment file is
two function parameters: `fetch(chr, start, end)` gives the reads and
`test_fetch(chr, start, end)` says whether the fetch succeeds. The count
table is a class with one field per map. `counts["PREF"]` and
`counts["POST"]` are one object in the source (bam_parser.py:68), so the
model has a single field `prefPost` that both tags read and increment. A
POST read therefore raises the PDP total.

Two behaviours of the code are easy to miss, and the model keeps both:
- An unmapped read is counted in `n_unmapped` and is then still classified.
  The classifier call at bam_parser.py:195 is outside the `else`.
- The aligner's minimum length is `min(len(read), len(target)) / 2` with no
  floor. Only the minimum score has the floor of 30 (bam_parser.py:121-122).
- The sum over `counts[tag]` equals the number of reads with that tag only
  for FULL, REPT and HANG. Because PREF and POST share one map, its sum
  (PDP, bam_parser.py:221) counts the PREF and the POST reads together.

## Model

| member | source | states |
|---|---|---|
| Dna.Complement | tredparse/bam_parser.py:27 | a character is fixed exactly when it is not one of A, T, C, G, a, t, c, g, and the table maps nucleotides to nucleotides |
| Dna.Rc | tredparse/bam_parser.py:369-371 | the reverse complement has the input's length, and position i holds the complement of the mirrored position |
| Dna.RcInvolution | tredparse/bam_parser.py:369-371 | applying the reverse complement twice returns the original string |
| Overlap.GetHangs | tredparse/bam_parser.py:92-111 | the hang is no greater than any of aR+bL, aL+bR, aL+aR and bL+bR, and equals one of them |
| Overlap.HangNonNegative | tredparse/bam_parser.py:103-111 | when the alignment offsets lie within both sequences, the hang is non-negative |
| Overlap.HangSymmetric | tredparse/bam_parser.py:103-111 | exchanging the reference and query roles leaves the hang unchanged |
| Overlap.FullCoverHangZero | tredparse/bam_parser.py:103-111 | an alignment covering the whole reference has hang 0 |
| Classifier.MaxUnits | tredparse/bam_parser.py:63-64 | max_units is the ceiling of read length over period: max_units units reach the read length and one fewer do not |
| Classifier.Bank | tredparse/bam_parser.py:79-90 | the bank has 2*max_units entries; entry i has i/2+1 units; even entries are prefix + repeat*units + suffix and odd entries are its reverse complement |
| Classifier.BankOrdered | tredparse/bam_parser.py:81-89 | unit counts never decrease along the bank and lie in 1..max_units |
| Classifier.CagBankSize | tredparse/bam_parser.py:64 | a CAG locus with 150 bp reads gets max_units 50 and a bank of 100 entries |
| Classifier.MinScore | tredparse/bam_parser.py:121-122 | the minimum score is at least 30 and at least min_len, and is one of the two |
| Classifier.TagOf | tredparse/bam_parser.py:127-150 | each tag holds exactly under its priority condition: HANG when hang >= 9; otherwise FULL or PREF when ref_begin < 9, FULL exactly when the suffix condition also holds; otherwise POST on the suffix condition; otherwise REPT when units >= max_units-1 and units*period <= read length; otherwise no tag |
| Classifier.BothFlanksIsFull | tredparse/bam_parser.py:139-146 | a read anchored in both flanks with hang below 9 is FULL, never PREF or POST |
| Classifier.ExactMatchIsFull | tredparse/bam_parser.py:127-146 | a read aligned end to end with the whole reference has hang 0 and is FULL |
| Classifier.BestIndex | tredparse/bam_parser.py:156 | the chosen candidate is beaten by none on (score, fewest units), and every earlier candidate has a strictly worse key, as Python's max keeps the first maximum |
| Classifier.Classify | tredparse/bam_parser.py:153-156 | a read has no classification exactly when no variant produced a candidate; otherwise the winner is one of the candidates and no candidate beats it |
| Classifier.Candidates | tredparse/bam_parser.py:119-151 | the candidate list `res`, one entry at most per bank variant in bank order; never longer than the bank |
| Classifier.WinnerTieBreak | tredparse/bam_parser.py:156 | the winner has the maximum score, and among equal scores the fewest units |
| Classifier.CandidatesScoreFloor | tredparse/bam_parser.py:121-125 | if the aligner honours its minimum score, every candidate scores at least 30 |
| Classifier.CandidatesFromBank | tredparse/bam_parser.py:120-151 | every candidate's unit count is one of the bank's |
| Counts.Inc | tredparse/bam_parser.py:157 | the defaultdict increment raises one key by one from an implicit 0 and changes no other key |
| Counts.SumValuesInc | tredparse/bam_parser.py:157 | one increment raises the sum of the map's values by exactly one |
| Counts.SumCounts | tredparse/bam_parser.py:220-221 | the loop over the keys returns the sum of all values |
| Counts.MaxCount | tredparse/bam_parser.py:222 | the result is 0 for an empty map, and otherwise a value of the map that no value exceeds |
| Scanner.PrefPostAliased | tredparse/bam_parser.py:68 | PREF and POST read the same map |
| Scanner.Record | tredparse/bam_parser.py:153-164 | with no classification nothing changes; otherwise exactly counts[tag][h] goes up by one, no map another tag addresses changes, and a detail {tag, h, seq} is appended exactly when the tag is not HANG |
| Scanner.RecordTotal | tredparse/bam_parser.py:157 | a classified read adds exactly one to the total over all maps |
| Scanner.PostFeedsPrefTotal | tredparse/bam_parser.py:68 | a POST read raises the total summed over counts["PREF"] by one |
| Scanner.RecordValid | tredparse/bam_parser.py:157-164 | recording keeps every count positive and keeps HANG reads out of the details |
| Scanner.Scan | tredparse/bam_parser.py:186-195 | the table after the fetched reads in order, each selected read recorded; the details list only grows, by at most one entry per read |
| Scanner.ScanTotal | tredparse/bam_parser.py:186-195 | after a scan the total count has grown by exactly the number of selected reads that got a classification |
| Scanner.ScanPerTable | tredparse/bam_parser.py:186-195 | after a scan the sum over one map has grown by exactly the number of selected reads whose winner that map counts: FDP by the FULL reads, PDP by the PREF and POST reads together |
| Scanner.ScanValid | tredparse/bam_parser.py:186-195 | a scan never puts a HANG read into the details and keeps every count positive |
| Scanner.BamParser.constructor | tredparse/bam_parser.py:35-72 | ploidy is 1 for a male at an X-linked locus and the locus ploidy otherwise; max_units is the ceiling of read length over period; the count table and details start empty |
| Scanner.BamParser.BuildDB | tredparse/bam_parser.py:74-90 | the nested loops build exactly the bank: forward then reverse complement for units 1..max_units |
| Scanner.BamParser.CollectCandidates | tredparse/bam_parser.py:119-151 | the loop collects, in bank order, one (score, units, tag) per variant whose alignment clears the thresholds and earns a tag |
| Scanner.BamParser.ParseReadSW | tredparse/bam_parser.py:113-164 | the new count table and details list are the old ones with the read's classification recorded |
| Scanner.BamParser.Parse | tredparse/bam_parser.py:166-195 | when the fetch of [max(0, start-pad), end+pad] fails nothing changes and n_unmapped is 0; otherwise the table is the scan over the fetched reads, classifying every unmapped read and every mapped read that starts in [max(0, start-READLEN), end+READLEN], and n_unmapped counts the unmapped reads |
| Scanner.BamParserResults.constructor | tredparse/bam_parser.py:215-222 | FDP is the sum of the FULL counts, PDP the sum of the shared PREF/POST counts, and RDP the largest REPT count or 0 when there is none; the details kept are the parser's own list |
| PairedSpan.GroupByNameSpec | tredparse/bam_parser.py:251-261 | a name is in the cache exactly when some paired, mapped, non-duplicate read carries it, and its list is exactly those reads in fetch order |
| PairedSpan.Group | tredparse/bam_parser.py:251-261 | the name-grouped cache; no name maps to an empty list |
| PairedSpan.GroupByName | tredparse/bam_parser.py:252-261 | the filtering loop builds that cache |
| PairedSpan.TargetLength | tredparse/bam_parser.py:284-290 | the adjusted span is at least b.reference_end - a.reference_start, and equals it exactly when neither outer end is soft-clipped |
| PairedSpan.PairOf | tredparse/bam_parser.py:266-280 | a group is used exactly when it has two reads in +/- orientation with span below 1000; it is target-spanning exactly when a starts before start-9 and b ends after end+9 |
| PairedSpan.SpansPartition | tredparse/bam_parser.py:273-280 | every used pair is in exactly one of target_lens and global_lens |
| PairedSpan.SpansBelowSpan | tredparse/bam_parser.py:274-275 | no span of 1000 or more appears in either list |
| PairedSpan.SpansOrderIndependent | tredparse/bam_parser.py:266 | the multisets of both lists are the same whatever order the cache's names are visited in |
| PairedSpan.CollectSpans | tredparse/bam_parser.py:266-280 | the loop over the cache's names visits every name once, in some order, and builds exactly the two span lists over that order |
| PairedSpan.PEextractor.constructor | tredparse/bam_parser.py:241-282 | the cache holds the grouped reads of [max(start-10000, 0), end+10000] (empty if the fetch fails); both lists are the spans over the visited order of its names; MINPE is end - start + 20 |
| Depth.EligibleRows | tredparse/bam_parser.py:338-341 | the rows kept are ascending, below the row count, and never one of the excluded indices |
| Depth.EligibleComplete | tredparse/bam_parser.py:338-341 | no row is dropped: every row below the row count that is not excluded is kept |
| Depth.YDepthRows | tredparse/bam_parser.py:338-347 | the loop takes the first N rows that are not excluded |
| Depth.DefaultPanelRows | tredparse/bam_parser.py:334-347 | with N = 5 and at least 9 rows, the rows measured are 0, 2, 3, 5 and 8 |
| Depth.ReadLength | tredparse/bam_parser.py:301-312 | with no reads there is no length; otherwise the result is one of the first 101 lengths and none of the first 101 lengths exceeds it |

## Left out

- The Smith-Waterman aligner itself and its scoring (match 1, mismatch 5, gap open 7, gap extend 2) are a foreign library. The model takes the aligner as a function parameter.
- Opening the BAM/CRAM file (`read_alignment`), `fetch` and `pileup` are I/O. The reads are the result of a function parameter, and `test_fetch`'s try/except is a boolean function parameter.
- Logging, the `verbose` prints, `show_counts` and the string formatting of details are output only. `_parseReadSW`'s `chr` and `verbose` parameters are dropped because they only feed output.
- `BamDepth.region_depth` is a floating-point average over the file's pileup. `get_Y_depth` also reads a data file and takes the numpy median of the depths. Only its row-selection rule is modelled.
- `BamParserResults` fields copied from the downstream caller belong to the genotyping model, not to this engine.
- `tredprepare.py` is an interactive locus-authoring tool and is not part of this model.
- Records.Read: every fetched read is assumed to carry its bases. pysam gives `query_sequence` as None for a record stored without them (SEQ `*`); the source then fails at `len(seq)` (bam_parser.py:121) and `parse` stops, while the model classifies the read.
- Classifier.MaxUnits: uses exact integer ceiling. The source computes it in floating point, which agrees for realistic read lengths.
- Scanner.BamParser.constructor: requires a non-empty motif. With an empty motif the source fails with a division by zero.
- PairedSpan.PEextractor.constructor: builds the two lists with CollectSpans into local variables and assigns them at the end, instead of appending to the fields. Python 2 dict iteration order is modelled as an unspecified order. SpansOrderIndependent shows that the resulting multisets do not depend on it.
