# keyword-cluster-finder, modelled in Dafny

keyword-cluster-finder groups search keywords. Two keywords belong together
when their search-engine result pages (SERPs) list similar domains in a
similar order. This project models the three pieces of the tool that do that
work and proves properties of the model.

- **Rankings** (`rankings.dfy`) covers the SERP data model and its builders.
  - A `SERP` is a keyword plus an ordered list of `SERPMember`s (keyword, prominence, domain).
  - `Parse` turns an already-read, already-decoded payload into a SERP.
  - `KeywordData` is a class over a `map<string, SERP>`. Its methods `BuildFromDisk` and `BuildFromDatabase` fold per-file and per-keyword outcomes into the map, and collect a `BuildError`.
  - Each builder is a loop that updates the map in place. It is proved against a recursive specification (`DiskStore`/`DiskFailures`, `DatabaseStore`/`QueryFailures`).
- **Rbo** (`rbo.dfy`) covers rank-biased overlap, the measure of Webber, Moffat and Zobel.
  - `intersection`, `rawOverlap`, `agreement`, `overlap`, `min` and `orderByLength` work over sequences and sets.
  - The three estimates `rboMin`, `rboRes` and `rboExt` are accumulator loops over `real`. Each is proved equal to a recursive definition.
  - `RBO` checks the range of `p` and returns the three estimates.
- **Graph** (`graph.dfy`) covers graph assembly and cluster naming.
  - `Graph` is a class whose four knobs start at their defaults and are changed by options applied in order.
  - `FindClusters` adds one node per keyword, then one edge per ordered pair of distinct keywords, weighted by RBO's point estimate.
  - It then hands the graph to a Markov clusterer, a function parameter, and names each cluster by its first shortest keyword.
  - An RBO failure or a clustering failure becomes an error.
- **Wrappers** (`wrappers.dfy`) holds the `Option` and `Result` types.

Go's `float64` is modelled as exact `real`. `math.Log` is a function parameter `ln`. `math.Pow` with an integer exponent is a recursive `Pow`. `math.Ceil` is exact. Go map iteration order is unspecified, so the loops over maps pick their next key with `:|`, and the proofs hold for every order.

In these places the code does something a reader might not expect; the model follows the code:

- A failed database query still stores the partial SERP collected so far under its keyword (pkg/rankings/parser.go:145-151).
- A file that opens but does not parse still stores the empty SERP under the keyword `""` (pkg/rankings/parser.go:92-98).
- The cluster name is the first keyword of minimal length. It is not the lexicographically smallest of those (the strict `<` at pkg/graph/graph.go:123).
- That length is Go's `len`, the number of bytes of the keyword's UTF-8 encoding, not its number of characters (pkg/graph/graph.go:123). The model measures it with `ByteLength`.
- RBO accepts p = 1 (pkg/rbo/rbo.go:16). There the point estimate, the only value the graph uses, is finite, while the lower and residual bounds are NaN.
- The residual bound multiplies its three partial sums together (pkg/rbo/rbo.go:71). The model keeps that product.

## Model

| member | source | states |
|---|---|---|
| Rankings.SERP.Length | pkg/rankings/parser.go:35-37 | the length is zero exactly when the SERP has no members |
| Rankings.Parse | pkg/rankings/parser.go:47-70 | a read or JSON failure gives an error and the empty SERP; a decoded array gives no error, members equal to the entries in order (so the length equals the entry count), the keyword of the first entry, and the empty keyword for an empty array |
| Rankings.KeywordData.constructor | pkg/rankings/parser.go:24-26 | a new KeywordData holds no SERPs |
| Rankings.KeywordData.BuildFromDisk | pkg/rankings/parser.go:73-108 | the new map is the per-file fold of the old one (an open failure writes nothing; a parsed or unparsable file writes its SERP under its keyword); the error is a BuildError holding one failure per failing file, in order, or none when no file failed; with no paths nothing changes and there is no error |
| Rankings.KeywordData.BuildFromDatabase | pkg/rankings/parser.go:112-171 | the new map stores, for each requested keyword, a SERP with that keyword and the fetched rows, failed or not; the error holds one CouldNotQuery per failed query; with no keywords nothing changes and there is no error |
| Rankings.DiskStoreKeys | pkg/rankings/parser.go:83-101 | after loading, the keys are the old keys plus the keyword of every file that opened |
| Rankings.DiskStoreFilesUnderKeyword | pkg/rankings/parser.go:92-98 | every newly stored SERP sits under its own keyword, and every other key keeps its old SERP |
| Rankings.ParseFailureStoresUnderEmptyKeyword | pkg/rankings/parser.go:92-98 | a file that opens but fails to parse leaves the key `""` in the map |
| Rankings.DiskFailuresIffSomeFileFails | pkg/rankings/parser.go:86-107 | no failure is recorded exactly when every file opens and parses, and there are never more failures than paths |
| Rankings.FileFailuresIffFails | pkg/rankings/parser.go:86-95 | one file records at most one failure, and none exactly when it opens and parses |
| Rankings.DiskFailuresCount | pkg/rankings/parser.go:86-95 | the number of recorded failures equals the number of failing files |
| Rankings.FailingFilesSplit | pkg/rankings/parser.go:83-101 | appending a path adds one to the failing count exactly when that file fails |
| Rankings.DatabaseStoreContents | pkg/rankings/parser.go:132-151 | after fetching, the keys are the old keys plus every requested keyword; each requested keyword maps to a SERP with that keyword and its rows; other keys keep their old SERP |
| Rankings.QueryFailuresIffSomeQueryFails | pkg/rankings/parser.go:145-170 | no failure is recorded exactly when no query fails; each failure names a requested keyword whose query failed; there are never more failures than keywords |
| Rankings.DatabaseStoreSize | pkg/rankings/parser.go:112-171 | starting from an empty map, the map ends with one entry per distinct requested keyword |
| Rbo.Smaller | pkg/rbo/rbo.go:125-134 | the result is one of the two arguments and is at most both |
| Rbo.Min | pkg/rbo/rbo.go:125-134 | the result is an element of the non-empty list and is at most every element |
| Rbo.CountDomains | pkg/rbo/rbo.go:137-143 | the count of each domain grows by its number of occurrences in the list, and the keys grow by the list's domains |
| Rbo.ReportRepeated | pkg/rbo/rbo.go:145-150 | the output lists, each once, exactly the domains counted at least twice |
| Rbo.Intersection | pkg/rbo/rbo.go:136-153 | the output lists, each once, exactly the domains counted at least twice over both lists together (for lists with unique domains, the domains present in both, by Rbo.SharedDomainsOfSets) |
| Rbo.RawOverlap | pkg/rbo/rbo.go:106-123 | the prefix lengths are min(depth, length) for each list; the intersection size is that of the two prefixes and, for unique lists, at most either prefix length |
| Rbo.OrderByLength | pkg/rbo/rbo.go:155-164 | returns the two SERPs with the shorter first, keeping `a` first on equal lengths |
| Rbo.Ceil | pkg/rbo/rbo.go:52 | the result is the least integer not below x |
| Rbo.SumLowerBoundTerms | pkg/rbo/rbo.go:37-42 | the loop computes the sum over 1 ≤ d ≤ k of p^d/d times (overlap at d minus overlap at k) |
| Rbo.SumHarmonicTerms | pkg/rbo/rbo.go:55-65 | the loop computes the sum of p^d/d over lo < d ≤ hi |
| Rbo.SumAgreementTerms | pkg/rbo/rbo.go:82-84 | the loop computes the sum of p^d times the agreement at d, over 1 ≤ d ≤ l |
| Rbo.SumTailTerms | pkg/rbo/rbo.go:85-87 | the loop computes the extrapolated tail sum over s < d ≤ l |
| Rbo.RboMin | pkg/rbo/rbo.go:30-45 | the result is the tight lower bound at the given depth, or at min(len a, len b) for depth 0 |
| Rbo.RboRes | pkg/rbo/rbo.go:48-72 | the result is the residual upper bound, with the cut-off f = ceil(l + s − xl) |
| Rbo.RboExt | pkg/rbo/rbo.go:75-92 | the result is the point estimate extrapolated from the agreement at the shorter length |
| Rbo.RBO | pkg/rbo/rbo.go:15-25 | an error is returned exactly when p < 0 or p > 1, and then all three estimates are zero; otherwise ext is the point estimate, and for p < 1 min and res are the lower bound at depth 0 and the residual bound |
| Rbo.OccurrencesPositive | pkg/rbo/rbo.go:137-143 | a domain is counted at least once exactly when some member has it |
| Rbo.OccurrencesAtMostOne | pkg/rbo/rbo.go:106-107 | in a list with unique domains every domain occurs at most once |
| Rbo.SharedDomainsOfSets | pkg/rbo/rbo.go:106-153 | for two lists with unique domains, the domains counted at least twice are exactly the intersection of their domain sets |
| Rbo.DomainsCardinality | pkg/rbo/rbo.go:106-107 | a list with unique domains has as many distinct domains as members |
| Rbo.SharedWithinBoth | pkg/rbo/rbo.go:121-122 | for unique lists the intersection is no larger than either list |
| Rbo.PrefixUnique | pkg/rbo/rbo.go:118-119 | a prefix of a unique list is unique |
| Rbo.Agreement | pkg/rbo/rbo.go:101-104 | agreement lies in [0, 1] for any two lists, repeated domains included |
| Rbo.Overlap | pkg/rbo/rbo.go:94-97 | at a depth within both lists' lengths, overlap is the number of domains the two prefixes share |
| Rbo.OverlapMonotone | pkg/rbo/rbo.go:94-97 | within both lists' lengths, overlap never decreases as the depth grows |
| Rbo.SharedDomainsAsRepeated | pkg/rbo/rbo.go:136-153 | the domains intersection reports are those occurring at least twice in the two lists joined |
| Rbo.RepeatedInBound | pkg/rbo/rbo.go:136-153 | in one list, the repeated domains plus the distinct domains number at most the list's length |
| Rbo.SharedAtMostHalf | pkg/rbo/rbo.go:101-104 | twice the shared count never exceeds the two prefix lengths together, so agreement's numerator never exceeds its denominator |
| Rbo.SharedDomainsSymmetric | pkg/rbo/rbo.go:136-153 | the shared domains do not depend on the order of the two lists |
| Rbo.AgreementSymmetric | pkg/rbo/rbo.go:101-104 | agreement(a, b) equals agreement(b, a) |
| Rbo.OverlapSymmetric | pkg/rbo/rbo.go:94-97 | overlap(a, b) equals overlap(b, a) |
| Rbo.SharedDomainsWithItself | pkg/rbo/rbo.go:136-153 | a list shares all of its domains with itself |
| Rbo.AgreementWithItself | pkg/rbo/rbo.go:101-104 | two SERPs with the same unique, non-empty members agree fully at every positive depth |
| Rbo.OverlapWithItself | pkg/rbo/rbo.go:94-97 | the overlap of identical unique lists is min(depth, length) |
| Rbo.LowerBoundSumSymmetric | pkg/rbo/rbo.go:37-42 | the lower-bound sum does not depend on the order of the two SERPs |
| Rbo.AgreementSumSymmetric | pkg/rbo/rbo.go:82-84 | the agreement sum does not depend on the order of the two SERPs |
| Rbo.OrderByLengthSymmetric | pkg/rbo/rbo.go:155-164 | swapping the arguments gives the same shorter and longer lengths |
| Rbo.EvaluationDepthSymmetric | pkg/rbo/rbo.go:31-33 | the automatic depth does not depend on the order of the two SERPs |
| Rbo.LowerBoundSymmetric | pkg/rbo/rbo.go:30-45 | the lower bound of (a, b) equals that of (b, a) |
| Rbo.ResidualBoundSymmetric | pkg/rbo/rbo.go:48-72 | the residual bound of (a, b) equals that of (b, a) |
| Rbo.PointEstimateSymmetric | pkg/rbo/rbo.go:75-92 | the point estimate of (a, b) equals that of (b, a) |
| Rbo.GeometricSumClosedForm | pkg/rbo/rbo.go:82-89 | (1 − p)/p times the sum of p^d over 1 ≤ d ≤ n is 1 − p^n |
| Rbo.AgreementSumWithItself | pkg/rbo/rbo.go:82-84 | for a unique list compared with itself, the agreement sum is the geometric sum of p^d |
| Rbo.PointEstimateWithItself | pkg/rbo/rbo.go:75-92 | the point estimate of a unique, non-empty SERP against itself is exactly 1 |
| Rbo.PointEstimateOfEqualLengths | pkg/rbo/rbo.go:85-91 | with equal lengths and an empty tail sum, the estimate reduces to 1 when the sum is the geometric one |
| Rbo.AgreementTestCases | pkg/rbo/rbo_test.go:36-93 | agreement of the test lists is 1 at depth 1, 2/3 at depth 3, 1 at depth 4 and 0.8 at depth 5 |
| Rbo.OverlapTestCases | pkg/rbo/rbo_test.go:95-142 | overlap of two identical 4-element lists is 3 at depth 3 and 4 at depth 5 |
| Rbo.IntersectionTestCase | pkg/rbo/rbo_test.go:144-166 | [one, two, three] and [two, three, four] share exactly {two, three} |
| Rbo.IntersectionTest | pkg/rbo/rbo_test.go:144-166 | the intersection method returns two entries, each "two" or "three" |
| Rbo.MinTest | pkg/rbo/rbo_test.go:168-204 | min of the four test lists is 1, 1, −5 and −5 |
| Graph.Applied | pkg/graph/graph.go:23-52 | an option sets its own knob and leaves the other three unchanged |
| Graph.LastOptionWins | pkg/graph/graph.go:55-68 | after configuring, a knob holds the value of the last option that sets it |
| Graph.UnsetKnobKeepsDefault | pkg/graph/graph.go:55-68 | a knob no option sets keeps its default (p 0.9, power 2, inflation 5, iterations 100) |
| Graph.Graph.Apply | pkg/graph/graph.go:63-65 | running one option's closure changes the graph's knobs as that option prescribes |
| Graph.Graph.constructor | pkg/graph/graph.go:55-68 | the new graph's knobs are the defaults with the options applied in order |
| Graph.KeywordGraph | pkg/graph/graph.go:80-101 | the nodes are the keywords; there is an edge u→v exactly when u and v are distinct keywords; its weight is the RBO point estimate of their SERPs |
| Graph.KeywordGraphSymmetric | pkg/graph/graph.go:89-100 | every edge has a reverse edge of the same weight |
| Graph.WeighableOutsideRange | pkg/graph/graph.go:95-98 | with p outside [0, 1], the edges can all be weighed exactly when there are fewer than two keywords |
| Graph.CharBytes | pkg/graph/graph.go:123 | a character takes one to four bytes in UTF-8, and one exactly when it is ASCII |
| Graph.ByteLength | pkg/graph/graph.go:123 | Go's `len` of a keyword lies between its character count and four times that |
| Graph.AsciiByteLength | pkg/graph/graph.go:123 | the byte length equals the character count exactly when every character is ASCII |
| Graph.GetShortestKeyword | pkg/graph/graph.go:120-129 | the result is the first keyword of minimal byte length in the non-empty list |
| Graph.ShortestKeywordTest | pkg/graph/graph.go:120-129 | of "apartment parking" and "parking", "parking" is the name |
| Graph.ByteLengthNameTest | pkg/graph/graph.go:120-129 | of "éé" (four bytes) and "abc" (three), "abc" is the name |
| Graph.NameClusters | pkg/graph/graph.go:108-117 | one cluster per group, in order, each holding its group's keywords and named by its first keyword of minimal byte length |
| Graph.AddNodes | pkg/graph/graph.go:82-87 | the nodes are exactly the keywords |
| Graph.AddEdgesFrom | pkg/graph/graph.go:90-100 | on success the row from u weighs every other keyword by RBO's point estimate and skips u; on failure RBO rejected p for some edge u→v with v distinct from u |
| Graph.AddEdges | pkg/graph/graph.go:89-101 | succeeds exactly when every edge can be weighed, then yields the keyword graph's edges; otherwise fails naming an edge between two distinct keywords |
| Graph.Graph.FindClusters | pkg/graph/graph.go:80-118 | fails with an edge error when RBO rejects p for some pair; otherwise returns the clusterer's error when it fails, or one named cluster per group in the clusterer's order |

## Left out

- Concurrency: the goroutines, wait groups, mutex and buffered channel of both builders are modelled as a sequential loop over the items. Appends to the error list are unsynchronised in the source, so errors can be lost under real concurrency. When two files carry the same keyword, which SERP survives depends on timing. The sequential model shows neither.
- I/O and decoding: `ioutil.ReadAll` and `json.Unmarshal` are abstracted as a `Payload` (unreadable, not JSON, or the decoded entries). `os.Open` is a function parameter returning a `FileOutcome`. The database fetch and row scanning are a function parameter returning a `QueryOutcome`.
- `ProcessDirectory` is not modelled: it only lists a directory, calls `BuildFromDisk` and stops the process on an error.
- The database driver package, the command-line programs and the progress bar are not part of this model.
- `BuildError.Error` is not modelled: it only formats a message. Error messages in general are constructors, not strings.
- Floating point: `float64` is modelled as exact `real`, so nothing is claimed about rounding, infinities or NaN. `math.Log` is the parameter `ln`.
- The Markov clusterer is an external library. It is the function parameter `Clusterer`, which returns groups of keywords or an error.
- Rbo.RBO: requires, when p is inside [0, 1], that p > 0 and that both lists are non-empty. At p = 0 or with an empty list the Go code divides by zero and yields infinities or NaN rather than an error. At p = 1 it promises nothing about min and res, which are NaN in Go.
- Rbo.RboMin: requires non-empty lists and p ≠ 0, for the same division by zero. At p = 1 it returns 0, where Go's `math.Log(0)` makes the result NaN.
- Rbo.RboRes: also requires p ≠ 1, because it divides by 1 − p.
- Rbo.RboExt: requires non-empty lists and p ≠ 0, for the same division by zero; p = 1 is allowed.
- Graph.Graph.FindClusters: requires that the edges can be weighed whenever p is inside [0, 1]. That excludes p = 0 and empty SERPs, where Go's edge weight is Inf or NaN; p = 1 is allowed. It also requires that the clusterer returns no empty group, because the source would then index an empty slice and panic.
- Graph.GetShortestKeyword: requires a non-empty list, because the source reads its first element.
- Graph.AddEdgesFrom: the Go code adds each edge to a shared graph with `AddEdge`. The model builds u's adjacency row and stores it once its loop ends. The resulting edge map is the same.
