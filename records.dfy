/** The records the alignment file hands to the scanners, and the locus
    description they scan for. */
module Records {

  /** The fields of one aligned read that tredparse/bam_parser.py consults. */
  datatype Read = Read(
    name: string,
    isUnmapped: bool,
    isPaired: bool,
    isReverse: bool,
    isDuplicate: bool,
    refStart: int,
    refEnd: int,
    sequence: string,
    queryLength: int,
    alnStart: int,
    alnEnd: int)

  /** A repeat locus: motif, chromosome, repeat tract coordinates, flanks,
      ploidy and whether it is X-linked. */
  datatype Locus = Locus(
    repeat: string,
    chr: string,
    repeatStart: int,
    repeatEnd: int,
    prefix: string,
    suffix: string,
    ploidy: int,
    isXlinked: bool)

  /** `samfile.fetch(chr, start, end)`: the reads overlapping a window. */
  type Fetcher = (string, int, int) -> seq<Read>

  /** `test_fetch`: whether fetching that window succeeds. */
  type FetchTest = (string, int, int) -> bool
}
