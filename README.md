# erised core, modelled in Dafny

erised is a small C++ library for collaborative filtering. It stores a
rating matrix (users by items) as a sparse matrix and computes averages over
its rows and columns. It keeps a symmetric similarity matrix in triangular
storage, and predicts a rating from a list of neighbour indexes. This project
models that core and proves properties of the model.

- **Sparse matrices.** There are three representations.
  - `MatCsr` and `DataCsrMap` keep one map per row, from column index to stored value.
  - `DataCsr`, in its CPU and GPU variants, keeps compressed-sparse-row arrays: `rows_offset_`, `cols_index_` and `elems_`.
  - The abstract state of the map-per-row classes is the datatype `SparseRows.Mat`. Its functions say what each operation computes.
  - The classes `MatCsrMat.MatCsr` and `DataCsrMapMat.DataCsrMap` keep that state as fields. Their loops are proved against those functions.
  - `CsrEncoding` defines the three CSR arrays a literal produces and proves that they decode back to the literal.
- **Statistics.** `Avarage` over the whole matrix, or over one row or column, is sum over count, and fails on a zero count.
- **Triangular storage.**
  - `TriangularMat` keeps the pairs (x, y) with x < y in a flat vector of n(n-1)/2 slots.
  - It has row and column views (`TriangularMatSlice`) and an iterator over a view.
  - `SimMat` wraps it, and folds a user function along one row.
- **Prediction.**
  - `Predict::Terms` folds a user function over the neighbour indexes. For each index it reads the data element and the similarity element.
  - `UserFilter::Predict` turns the two accumulated sums into avg + deviation / weight.

To model the source's exceptions, an operation that may throw returns `Common.Result`, with the error kind as `Common.Error`:

| source exception | `Common.Error` |
|---|---|
| `std::out_of_range` | `OutOfRange` |
| `std::invalid_argument` | `InvalidArgument` |
| the "divide by zero" `overflow_error` and `DIVIDE_BY_ZERO` | `DivideByZero` |
| `BAD_ALLOC` | `BadAlloc` |

Floating-point values are modelled as `real`.

## Model

| member | source | states |
|---|---|---|
| Literal.MaxLen | erised/core/src/mat_csr.h:60-73 | the list constructor's column count is the length of the longest literal row: no row is longer, and some row attains it unless it is 0 |
| Literal.MaxLenStep | erised/core/src/mat_csr.h:60-73 | the running longest-row length after one more row is the larger of the two |
| SparseRows.EncodeRowEntries | erised/core/src/mat_csr.h:76-83 | a row map built from a literal row holds key c exactly when c is a position whose literal is non-zero, and stores that literal there |
| SparseRows.EncodeRowSize | erised/core/src/mat_csr.h:76-83 | a row map stores as many entries as the literal row has non-zeros |
| SparseRows.Mat.Element | erised/core/src/mat_csr.h:145-165 | on a valid matrix, operator()(x, y) succeeds exactly when x < SizeRows and y <= SizeCols; every failure is out_of_range; the read at y == SizeCols is zero |
| SparseRows.Mat.NumElementsLine | erised/core/src/data_csr_map-inl.h:150-153 | the count of row i succeeds exactly for an existing row; the checked access fails with out_of_range otherwise |
| SparseRows.Mat.NumElementsLines | erised/core/src/mat_csr.h:232-246 | one count per row, and entry k agrees with NumElementsLine(k) |
| SparseRows.Mat.NumElementsCols | erised/core/src/mat_csr.h:248-273 | SizeCols counts; entry c is the number of rows storing column c |
| SparseRows.FromLiteralStoresNonZeros | erised/core/src/data_csr_map-inl.h:19-59 | the list constructor yields a valid matrix with \|lit\| rows and MaxLen(lit) columns; row r stores exactly the non-zero literals of row r, at their positions |
| SparseRows.ElementOfLiteral | erised/core/src/data_csr_map-inl.h:107-131 | reading a list-constructed matrix gives back the literal, zero-padded to SizeCols, and out_of_range past the bounds |
| SparseRows.NumElementsOfLiteral | erised/core/src/data_csr_map-inl.h:138-148 | a list-constructed matrix stores one entry per non-zero literal |
| SparseRows.FromDimsEmpty | erised/core/src/mat_csr.h:50-55 | the (rows, cols) constructor yields a valid matrix with nothing stored in any row or column |
| SparseRows.NumElementsLinesSum | erised/core/src/mat_csr.h:232-246 | the per-row counts add up to NumElements() |
| SparseRows.NumElementsColsSum | erised/core/src/mat_csr.h:248-273 | on a valid matrix the per-column counts also add up to NumElements() |
| SparseRows.FoldMapRemove | erised/core/src/data_csr_map-inl.h:270-290 | with a commutative, associative fn, folding a row map in any order may take any key last, so the unordered iteration order does not matter |
| SparseRows.ReduceAddIsSum | erised/core/src/data_csr_map-inl.h:230-249 | Reduce(+) is the sum of every value, absent entries counting as zero |
| SparseRows.RowReduceAddIsSum | erised/core/src/data_csr_map-inl.h:270-290 | RowReduce(i, +) is the sum of row i |
| SparseRows.ColReduceAddIsSum | erised/core/src/data_csr_map-inl.h:189-213 | ColReduce(i, +) is the sum of column i over the rows |
| SparseRows.MapKeepsKeys | erised/core/src/data_csr_map-inl.h:215-228 | Map(fn) keeps every row's key set, the counts and validity, and replaces each stored v by fn(v) |
| SparseRows.RowMapOnlyRow | erised/core/src/data_csr_map-inl.h:251-268 | RowMap(i, fn) changes only row i, keeps its keys, and replaces each of its values v by fn(v) |
| SparseRows.ColMapOnlyColumn | erised/core/src/data_csr_map-inl.h:171-187 | ColMap(i, fn) changes only the entries at key i, and rows without key i are unchanged |
| SparseRows.SameKeysSameCounts | erised/core/src/data_csr_map-inl.h:138-169 | matrices whose rows have the same key sets have the same total and per-column counts |
| SparseLoops.EncodeRowLoop | erised/core/src/mat_csr.h:76-83 | the inner scan inserts exactly the row's non-zeros at their positions (EncodeRow) |
| SparseLoops.EncodeLiteral | erised/core/src/mat_csr.h:59-96 | the outer scan builds one row map per literal row, and SizeCols is the longest row (the FromLiteral state) |
| SparseLoops.LiteralRowsStep | erised/core/src/mat_csr.h:59-96 | the built rows grow by one encoded literal row per step of the outer scan |
| SparseLoops.CountEntries | erised/core/src/mat_csr.h:189-198 | the NumElements loop adds up the row-map sizes |
| SparseLoops.CountColumn | erised/core/src/mat_csr.h:204-223 | the NumElementsCol loop counts the rows containing key i |
| SparseLoops.FoldRowEntries | erised/core/src/data_csr_map-inl.h:277-287 | the fold over one row map, in whatever order the keys come, equals the order-free fold FoldMap |
| MatCsrMat.MatCsr.Empty | erised/core/src/mat_csr.h:45-48 | no rows and both sizes zero |
| MatCsrMat.MatCsr.Dims | erised/core/src/mat_csr.h:50-55 | `rows` empty row maps, SizeRows = rows, SizeCols = cols |
| MatCsrMat.MatCsr.FromList | erised/core/src/mat_csr.h:57-97 | the state is FromLiteral(lit), and it is valid |
| MatCsrMat.MatCsr.Copy | erised/core/src/mat_csr.h:99-103 | the copy has the source's rows and sizes |
| MatCsrMat.MatCsr.Move | erised/core/src/mat_csr.h:105-112 | the new object takes the rows and sizes; the moved-from object is left with no rows and zero sizes |
| MatCsrMat.MatCsr.Assign | erised/core/src/mat_csr.h:114-124 | after assignment this holds m's rows and sizes; self-assignment changes nothing |
| MatCsrMat.MatCsr.NumElements | erised/core/src/mat_csr.h:189-198 | the number of stored entries |
| MatCsrMat.MatCsr.NumElementsCol | erised/core/src/mat_csr.h:204-223 | the number of rows storing column i |
| MatCsrMat.MatCsr.NumElementsLines | erised/core/src/mat_csr.h:232-246 | the SizeRows-long vector of per-row counts |
| MatCsrMat.MatCsr.NumElementsCols | erised/core/src/mat_csr.h:248-273 | the SizeCols-long vector of per-column counts |
| MatCsrMat.MatCsr.NumElementsAxis | erised/core/src/mat_csr.h:225-230 | per-row counts for ROW, per-column counts for COL |
| DataCsrMapMat.DimsAsWrittenBreaksRows | erised/core/src/data_csr_map-inl.h:61-65 | the (rows, cols) constructor as written leaves no row map, so reading (0, 0) fails and the state breaks the row invariant; the intended state reads 0 |
| DataCsrMapMat.DataCsrMap.Empty | erised/core/src/data_csr_map-inl.h:13-17 | no rows and both sizes zero |
| DataCsrMapMat.DataCsrMap.Dims | erised/core/src/data_csr_map-inl.h:61-65 | the intended (rows, cols) state: `rows` empty row maps |
| DataCsrMapMat.DataCsrMap.FromList | erised/core/src/data_csr_map-inl.h:19-59 | the state is FromLiteral(lit), and it is valid |
| DataCsrMapMat.DataCsrMap.NumElements | erised/core/src/data_csr_map-inl.h:138-148 | the number of stored entries |
| DataCsrMapMat.DataCsrMap.NumElementsCol | erised/core/src/data_csr_map-inl.h:155-169 | the number of rows storing column i |
| DataCsrMapMat.DataCsrMap.RowMap | erised/core/src/data_csr_map-inl.h:251-268 | the new state is RowMap(i, fn) of the old one |
| DataCsrMapMat.DataCsrMap.Map | erised/core/src/data_csr_map-inl.h:215-228 | the new state is Map(fn) of the old one |
| DataCsrMapMat.DataCsrMap.ColMap | erised/core/src/data_csr_map-inl.h:171-187 | the new state is ColMap(i, fn) of the old one |
| DataCsrMapMat.DataCsrMap.Reduce | erised/core/src/data_csr_map-inl.h:230-249 | the result is the order-free fold of fn over every stored value, from 0 |
| DataCsrMapMat.DataCsrMap.RowReduce | erised/core/src/data_csr_map-inl.h:270-290 | the result is the order-free fold of fn over row i, from 0 |
| DataCsrMapMat.DataCsrMap.ColReduce | erised/core/src/data_csr_map-inl.h:189-213 | the result is fn folded over column i, rows in order, from 0 |
| CsrEncoding.RowEncoding | erised/core/src/data_csr-inl.h:14-45 | one row contributes one value and one column per non-zero; each value sits at its column; the columns are strictly increasing, and every non-zero position appears |
| CsrEncoding.OffsetsCount | erised/core/src/data_csr-inl.h:14-45 | rows_offset_[r] is the number of non-zeros in the rows before r; elems_ and cols_index_ hold every non-zero |
| CsrEncoding.OffsetStep | erised/core/src/data_csr-inl.h:14-45 | row r ends where row r + 1 starts, and the last row ends at the end of elems_ |
| CsrEncoding.OffsetsMonotone | erised/core/src/data_csr-inl.h:14-45 | offsets never decrease |
| CsrEncoding.OffsetsStep | erised/core/src/data_csr-inl.h:14-45 | each row appends its running non-zero count to rows_offset_, INVALID_LINE on the GPU side for a row without non-zeros |
| CsrEncoding.RowSlice | erised/core/src/data_csr-inl.h:14-45 | row r's slice of elems_ and cols_index_ is exactly that row's non-zeros and their columns |
| CsrEncoding.LookUpRow | erised/core/src/data_csr-inl.h:14-45 | looking column c up in a row's encoding gives the literal at c, or zero past the row's end |
| CsrEncoding.DecodeSlice | erised/core/src/data_csr-inl.h:14-45 | decoding row r from its slice reproduces the literal row, zero-padded |
| CsrEncoding.DecodeRoundTrip | erised/core/src/data_csr-inl.h:14-45 | round trip: every row decoded from the three arrays is the literal row padded to SizeCols |
| CsrEncoding.CudaOffsetsMeaning | erised/core/src/cuda_csr-inl.h:49-59 | the GPU-side offset is INVALID_LINE exactly for rows without non-zeros; otherwise it is the CPU-side running count |
| CsrEncoding.NextStartIsOffset | erised/core/src/cuda_csr-inl.h:49-59 | skipping INVALID_LINE rows from row j lands on row j's running count |
| CsrEncoding.CudaRowSlice | erised/core/src/cuda_csr-inl.h:49-59 | a valid GPU-side row starts at its CPU offset and ends at the next valid offset; that range holds its values and decodes to the literal |
| CsrEncoding.CudaInvalidRowIsZero | erised/core/src/cuda_csr-inl.h:49-59 | an INVALID_LINE row is all zeros in the literal |
| DataCsrMat.DataCsr.Empty | erised/core/src/data_csr-inl.h:7-11 | all three arrays empty and both sizes zero |
| DataCsrMat.DataCsr.FromList | erised/core/src/data_csr-inl.h:13-45 | the arrays are Offsets, AllCols and AllVals of the literal; SizeRows = \|lit\|, SizeCols = the longest row |
| DataCsrMat.ListRowStep | erised/core/src/data_csr-inl.h:13-45 | one row of the scan appends that row's values, columns and offset, and updates the longest-row length |
| DataCsrMat.DataCsr.Dims | erised/core/src/data_csr-inl.h:47-52 | rows + 1 zero offsets, nothing stored, the given sizes |
| DataCsrMat.ScanRow | erised/core/src/data_csr-inl.h:20-39 | scanning one row appends its non-zeros and their columns, and raises the column count to the row's length |
| CudaCsrMat.AsWrittenRowMapFails | erised/core/src/cuda_csr-inl.h:182-201 | on row 0 of {{1}} and of {{1}, {0}}, RowMap as written reads rows_offset_[1] past the end or as INVALID_LINE |
| CudaCsrMat.ListStateFitsRowMap | erised/core/src/cuda_csr-inl.h:19-70 | a list-constructed matrix meets the corrected RowMap's precondition on every row |
| CudaCsrMat.RowMapTouchesOnlyRow | erised/core/src/cuda_csr-inl.h:182-201 | the corrected RowMap applies fn to exactly the values of row i |
| CudaCsrMat.OtherRowUnchanged | erised/core/src/cuda_csr-inl.h:182-201 | after RowMap(i) every other row still holds its own values |
| CudaCsrMat.MapRangeOutside | erised/core/src/cuda_csr-inl.h:182-201 | rewriting a range of elems_ leaves every slice outside that range unchanged |
| CudaCsrMat.CudaCsr.Empty | erised/core/src/cuda_csr-inl.h:13-17 | all three arrays empty and both sizes zero |
| CudaCsrMat.CudaCsr.FromList | erised/core/src/cuda_csr-inl.h:19-70 | the arrays are CudaOffsets, AllCols and AllVals of the literal, with its sizes |
| CudaCsrMat.CudaCsr.Dims | erised/core/src/cuda_csr-inl.h:72-77 | rows + 1 zero offsets, nothing stored, the given sizes |
| CudaCsrMat.CudaCsr.Assign | erised/core/src/cuda_csr-inl.h:93-103 | copy assignment takes m's three arrays and leaves this object's sizes as they were |
| CudaCsrMat.CudaCsr.MapSlice | erised/core/src/cuda_csr-inl.h:168-173 | the loop shared by both maps rewrites elems_ on [start, end) and nothing else |
| CudaCsrMat.CudaCsr.Map | erised/core/src/cuda_csr-inl.h:165-175 | every stored value v becomes fn(v); offsets, columns and sizes stay |
| CudaCsrMat.CudaCsr.RowMapAsWritten | erised/core/src/cuda_csr-inl.h:182-201 | as written: an INVALID_LINE row is left alone, otherwise [rows_offset_[i], rows_offset_[i+1]) is rewritten |
| CudaCsrMat.CudaCsr.RowMap | erised/core/src/cuda_csr-inl.h:182-201 | corrected: an INVALID_LINE row is left alone, otherwise the row's range up to the next valid offset or the end is rewritten |
| BasicStatistic.Average | erised/core/src/basic_statistic.h:9-22 | the average fails exactly when nothing is stored, and then with divide-by-zero |
| BasicStatistic.LineAverage | erised/core/src/basic_statistic.h:24-53 | an out_of_range failure happens only for a missing row on the ROW axis |
| BasicStatistic.AverageIsMean | erised/core/src/basic_statistic.h:9-22 | when something is stored, average times count is the sum of all values |
| BasicStatistic.RowAverageIsMean | erised/core/src/basic_statistic.h:29-36 | a missing row is out_of_range, an empty row is divide-by-zero, otherwise average times count is the row's sum |
| BasicStatistic.ColAverageIsMean | erised/core/src/basic_statistic.h:37-48 | a column average fails exactly when the column count is zero; otherwise average times count is the column's sum |
| BasicStatistic.DenseRowSumEncode | erised/core/src/data_csr_map-inl.h:19-59 | the sum of a list-built row is the sum of its literal row |
| BasicStatistic.ColumnOfLiteral | erised/core/src/data_csr_map-inl.h:155-169 | the column sum and count of a list-built matrix are those of the literal column |
| BasicStatistic.DenseSumOfLiteral | erised/core/src/data_csr_map-inl.h:19-59 | the total of a list-built matrix is the sum of all literals |
| BasicStatistic.AverageOfLiteral | erised/core/src/basic_statistic.h:9-22 | on a list-built matrix the average is the literal sum over the number of non-zero literals |
| BasicStatistic.RowAverageOfLiteral | erised/core/src/basic_statistic.h:29-36 | a row average of a list-built matrix is the literal row's sum over its non-zeros |
| BasicStatistic.ColAverageOfLiteral | erised/core/src/basic_statistic.h:37-45 | a column average of a list-built matrix is the literal column's sum over its non-zeros |
| BasicStatisticExample.TestLineAverages | erised/core/test/basic_statistic_test.cc:11-20 | on the test matrix, row 2 averages to 0.44 and column 0 to 0.275 |
| Triangular.TriangularMatElems | erised/core/src/triangular_mat.h:87-90 | the slot count size*size/2 - size/2 is Tri(size) = n(n-1)/2, the number of pairs x < y < size |
| Triangular.ElemsClosedForm | erised/core/src/triangular_mat.h:87-90 | size*size/2 - size/2 is n(n-1)/2 for every size |
| Triangular.ElemsStep | erised/core/src/triangular_mat.h:87-90 | one more row and column adds `size` slots |
| Triangular.ElemsSmallSizes | erised/core/test/triangular_mat_test.cc:14-15 | sizes 0 and 1 have no slot, size 2 has one, and size 4 has the test's six |
| Triangular.Index | erised/core/src/triangular_mat-inl.h:25-30 | corrected index: every pair x < y < size maps inside the slot vector |
| Triangular.IndexNextInRow | erised/core/src/triangular_mat-inl.h:25-30 | the next pair in a row takes the next slot |
| Triangular.IndexNextRow | erised/core/src/triangular_mat-inl.h:25-30 | the first pair of the next row follows the last pair of a row |
| Triangular.IndexEnds | erised/core/src/triangular_mat-inl.h:25-30 | (0, 1) takes the first slot and (size-2, size-1) the last |
| Triangular.IndexLexMonotone | erised/core/src/triangular_mat-inl.h:25-30 | the index is increasing in the lexicographic order of pairs |
| Triangular.IndexInjective | erised/core/src/triangular_mat-inl.h:25-30 | two pairs share a slot if and only if they are the same pair |
| Triangular.PairAt | erised/core/src/triangular_mat-inl.h:25-30 | every slot is the index of some valid pair, so the index is onto |
| Triangular.PairAtOrdered | erised/core/src/triangular_mat-inl.h:25-30 | slots come in the lexicographic order of their pairs |
| Triangular.WriteTouchesOneSlot | erised/core/src/triangular_mat-inl.h:25-30 | writing through a pair changes what that pair reads and nothing any other pair reads |
| Triangular.ReadAllInOrder | erised/core/src/triangular_mat-inl.h:14-18 | reading the pairs in order gives back the vector the matrix was built from |
| Triangular.IndexAsWrittenOutOfRange | erised/core/src/triangular_mat-inl.h:27-28 | as written, for size 4 the pair (1, 3) gets slot 6 of 6 slots, where the corrected index gives 4 |
| Triangular.RowColSameSlot | erised/core/src/triangular_mat-inl.h:61-73 | Row(i)[k] and Col(k)[i] read the same slot |
| Triangular.TriangularMat.constructor | erised/core/src/triangular_mat-inl.h:9-12 | size zero slots, one per pair |
| Triangular.TriangularMat.FromVector | erised/core/src/triangular_mat-inl.h:14-18 | the matrix is built exactly when the vector has the slot count and then keeps it; otherwise invalid_argument |
| Triangular.TriangularMat.Set | erised/core/src/triangular_mat-inl.h:25-30 | writing (x, y) stores v in its slot, so it reads v and every other pair reads as before |
| Triangular.TriangularMat.Get | erised/core/src/triangular_mat-inl.h:25-37 | the read of (x, y) is the element at slot Index(size, x, y), with the index formula taken at n = size (see Findings) |
| Triangular.TriangularMat.Row | erised/core/src/triangular_mat-inl.h:39-42 | a fresh view of the pairs (i, k) |
| Triangular.TriangularMat.Col | erised/core/src/triangular_mat-inl.h:44-47 | a fresh view of the pairs (k, i) |
| Triangular.TriangularMatSlice.constructor | erised/core/src/triangular_mat-inl.h:49-53 | the view remembers the matrix, the axis and the line |
| Triangular.TriangularMatSlice.Copy | erised/core/src/triangular_mat-inl.h:55-59 | the copy has the same matrix, axis and line |
| Triangular.TriangularMatSlice.At | erised/core/src/triangular_mat-inl.h:61-66 | position i reads matrix(axis_i, i) on a row view and matrix(i, axis_i) on a column view |
| Triangular.TriangularMatSlice.Put | erised/core/src/triangular_mat-inl.h:68-73 | writing position i stores v in that pair's slot, and the position then reads v |
| Triangular.TriangularMatSliceIterator.constructor | erised/core/src/triangular_mat.h:79-81 | a new iterator stands at position 0 of its view |
| Triangular.TriangularMatSliceIterator.Copy | erised/core/src/triangular_mat.h:47-49 | the copy has the same view and position |
| Triangular.TriangularMatSliceIterator.Increment | erised/core/src/triangular_mat.h:51-54 | prefix ++ moves one position on |
| Triangular.TriangularMatSliceIterator.PostIncrement | erised/core/src/triangular_mat.h:56-60 | postfix ++ returns a copy at the old position and moves this one on |
| Triangular.TriangularMatSliceIterator.Deref | erised/core/src/triangular_mat.h:70-76 | operator* is the view's element at the current position |
| Triangular.TriangularMatSliceIterator.Equals | erised/core/src/triangular_mat.h:62-64 | two iterators are equal exactly when their positions are equal; the slices are not compared |
| Triangular.TriangularMatSliceIterator.NotEquals | erised/core/src/triangular_mat.h:66-68 | != holds exactly when == does not |
| SimMatrix.RowFoldConcat | erised/core/src/parallel.h:60-66 | folding a concatenation of index lists is folding the second from the first's result, as a split range would be |
| SimMatrix.RowFoldReadsOnlyRow | erised/core/src/sim_mat-inl.h:33-59 | the fold depends only on what the row holds at the listed indexes |
| SimMatrix.ReduceEmpty | erised/core/src/sim_mat-inl.h:46-48 | with no index the result is the zero array |
| SimMatrix.SimMat.constructor | erised/core/src/sim_mat.h:23 | an n-by-n similarity matrix with every pair zero |
| SimMatrix.SimMat.Wrap | erised/core/src/sim_mat-inl.h:11 | the member initialiser stores the built triangular matrix |
| SimMatrix.SimMat.FromVector | erised/core/src/sim_mat-inl.h:9-14 | built exactly when the vector has the slot count, and then holds it; any failure is reported as BAD_ALLOC |
| SimMatrix.SimMat.Element | erised/core/src/sim_mat-inl.h:28-31 | Element(x, y) reads the triangular matrix at (x, y) |
| SimMatrix.SimMat.SetElement | erised/core/src/sim_mat-inl.h:23-26 | writing Element(x, y) stores v in that pair's slot and nothing else |
| SimMatrix.SimMat.Reduce | erised/core/src/sim_mat-inl.h:33-59 | the result is fn(k, row[k], acc) folded left over the indexes in order, from the zero array |
| Prediction.DataElem | erised/filters/src/predict.h:43-48 | the data element is data(ri, k) on ROW and data(k, ri) on COL, with their failures |
| Prediction.TermsSuccess | erised/filters/src/predict.h:40-55 | the terms fold succeeds exactly when every data read along the indexes succeeds |
| Prediction.TermsFailurePrefix | erised/filters/src/predict.h:40-55 | the first failing read decides the result of the whole fold |
| Prediction.TermsLast | erised/filters/src/predict.h:40-53 | after a successful prefix, a successful read of the next index adds one fn step |
| Prediction.Combine | erised/filters/src/predict.h:57-63 | the combiner's result has one value per accumulator |
| Prediction.CombineLaws | erised/filters/src/predict.h:57-63 | on arrays of one size the combiner is commutative and associative, with the zero array as its identity |
| Prediction.AccumulateSize | erised/filters/src/predict.h:30-53 | an accumulating user function keeps the accumulator array at N values |
| Prediction.TermsPartition | erised/core/src/parallel.h:60-66 | for an accumulating user function, any split of the indexes into two ranges, combined, gives the serial result |
| Prediction.Predict.constructor | erised/filters/src/predict.h:23 | the axis is fixed at construction |
| Prediction.Predict.Terms | erised/filters/src/predict.h:25-66 | the result is the user function folded over the indexes from the zero array, with data and similarity elements read per index; a failing read is the result |
| PredictionExample.TestTermsOfLineZero | erised/filters/test/predict_test.cc:57-86 | for line 0 with indexes {1, 2}, the ratings sum to 7 and the similarities to 0.839181 + 0.606339 |
| PredictionExample.TwoStepFold | erised/filters/src/predict.h:40-53 | over two indexes whose reads succeed, the fold is two fn steps in order |
| PredictionExample.LineZeroReads | erised/filters/test/predict_test.cc:57-86 | the test's line 0 holds 3 at column 1 and 4 at column 2 |
| PredictionExample.TermsOfLineZero | erised/filters/test/predict_test.cc:57-86 | for any data and similarity holding the test's values, the terms of line 0 over {1, 2} are the sums the test expects |
| Models.CollaborativeModel.constructor | erised/filters/src/model.h:27-31 | the model keeps its data and axis, and is not yet fitted |
| Models.CollaborativeModel.Similarity | erised/filters/src/model.h:33-39 | the similarity matrix the model holds: the initial one, or the one the last Fit computed |
| Models.CollaborativeModel.NeighborsSimilarity | erised/filters/src/model.h:41-47 | the same similarity matrix as Similarity() |
| Models.CollaborativeModel.Fit | erised/filters/src/model.h:49-52 | after Fit the model is fitted and holds the computed similarity |
| Models.CollaborativeModel.GetAxis | erised/filters/src/model.h:54-56 | the axis given at construction |
| Models.CollaborativeModel.PredTerms | erised/filters/src/model.h:59-66 | the terms of line i over this model's data and similarity |
| Models.UserTermsAt | erised/filters/src/model.h:90-98 | lookup lemma, unfolding the definitions: the user filter's term for neighbour k is v1 * (v2 - avgs[k]) and v1 |
| Models.UserStep | erised/filters/src/model.h:89-99 | one step of the user filter adds the neighbour's weighted deviation and weight to the two running sums |
| Models.UserSumsLast | erised/filters/src/model.h:89-99 | after a successful prefix and read, the two sums grow by the last neighbour's weighted deviation and weight |
| Models.UserTermsAreSums | erised/filters/src/model.h:89-99 | the user filter's terms array is exactly the weighted-deviation sum and the weight sum, and it fails with the same error |
| Models.UserFilter.constructor | erised/filters/src/model.h:82-84 | a ROW-axis model over data, with the per-row averages |
| Models.UserFilter.Predict | erised/filters/src/model.h:87-105 | a failing read is the result; a zero weight sum is divide-by-zero; otherwise the result is avgs[i] + deviation / weight |

## Left out

- Concurrency: `parallel_for` and `parallel_reduce` are modelled by their serial fallback (erised/core/src/parallel.h:55-66). `Prediction.TermsPartition` and `SimMatrix.RowFoldConcat` state that a split run gives the same result. TBB, mutexes and atomics are not modelled.
- Floating point: `float` is `real`. The test's approximate comparisons are stated as exact equalities on reals.
- I/O: the stream printers and the debug output inside `operator()` are not modelled.
- The base class `DataBase` and the `Pos` type are not modelled; element access takes (x, y).
- The GPU kernels in erised/core/src/cuda/cuda_csr_func.h and `cuda_ptr.h` are not modelled. Only the host-side `DataCsr` of erised/core/src/cuda_csr-inl.h is modelled.
- The flann similarity matrix and `Correlation` are not modelled. The similarity is a parameter: a function `(x, y) -> real` given to `Predict.Terms`, and the fitted similarity is the argument of `CollaborativeModel.Fit`.
- `Models.UserFilter.constructor` takes the per-row averages as a parameter, because the vectorised `Avarage(data, Axis)` overload it calls has no definition.
- `Models.CollaborativeModel.PredTerms` takes the neighbour indexes as a parameter. The source passes an undeclared name `indexes` (erised/filters/src/model.h:64).
- `Prediction.Predict.Terms`: the source passes the iterator `it` where an index is expected; the model uses the index `*it`.
- `Prediction.Predict.Pred` applies fn to the array. Its definition is its only contract and it has no row.
- `Models.AvgAt` reads zero past the end of the averages. There the source indexes past the end of a vector, which is undefined behaviour.
- `Models.UserFilter.Predict` requires i < |avgs|, because the source indexes `avgs_[i]` unchecked.
- `DataCsrMapMat.DataCsrMap.RowMap` and `DataCsrMapMat.DataCsrMap.RowReduce` require i < |rows|, because the source takes `rows_.begin() + i` unchecked (erised/core/src/data_csr_map-inl.h:253, 272). The one visible caller, the row average, fails with out_of_range through `NumElementsLine(i)` before it reaches `RowReduce` (erised/core/src/basic_statistic.h:31-34).
- `CudaCsrMat.CudaCsr.RowMapAsWritten` and `CudaCsrMat.CudaCsr.RowMap` require i < |rowsOffset|, because the source reads `rows_offset_[i]` unchecked (erised/core/src/cuda_csr-inl.h:185).
- `SparseRows.Mat.Element`: `operator()` of `MatCsr` returns a `T&` into a copy of the row map (erised/core/src/mat_csr.h:156). The model returns the value; the dangling reference and writes through it are not modelled. The source's documentation says columns are rejected at y >= SizeCols, but the code rejects only y > SizeCols; the model follows the code.
- `MatCsrMat.MatCsr.Move`: the moved-from row vector is modelled as empty (the usual moved-from state).
- `MatCsrMat.MatCsr.Assign` models copy assignment. Move assignment (erised/core/src/mat_csr.h:126-135) also leaves the moved-from rows unspecified; that is not modelled.
- The copy constructor, move constructor and assignments of `DataCsrMap` are not modelled. They copy only `rows_` and leave the sizes uninitialised (erised/core/src/data_csr_map-inl.h:67-92).
- The move constructor and move assignment of the GPU-side `DataCsr` are not modelled.
- `DataCsrMapMat.DataCsrMap.Reduce` and `DataCsrMapMat.DataCsrMap.RowReduce` require fn to be commutative and associative. `std::unordered_map` iterates in an unspecified order, so only such an fn has one defined result.
- `DataCsrMapMat.DataCsrMap.RowReduce` returns its fold. The source function has no return statement (erised/core/src/data_csr_map-inl.h:277).
- The CPU-side `DataCsr` declares `Map`, `RowMap`, `ColMap`, the reductions, `AddRow` and `AddCol` with empty bodies (erised/core/src/data_csr-inl.h:86-140). They do nothing and are not modelled. The copy constructor there is empty too.
- The GPU-side `DataCsr` likewise defines `AddCol`, `AddRow`, `ColMap`, `ColReduce`, `Reduce` and `RowReduce` with empty bodies (erised/core/src/cuda_csr-inl.h:136-163, 178-180, 204-206); the three reductions return nothing. They are not modelled. Its copy constructor is defined as `GpuCsr<T>::GpuCsr` (erised/core/src/cuda_csr-inl.h:80-84), the class name of erised/core/src/cuda_csr.h, where every other member of this file is defined on `DataCsr<T>`. It is not modelled.
- `SimMatrix.SimMat.Reduce` requires every index to lie to the right of `axis` in its row. The source's row view reads (axis, k) without mirroring, and k <= axis underflows the triangular index. `fnm` is unused by the serial fallback.
- `std::array<T, N>` is a `seq<real>` of n values.
- Slice `Begin`/`End` are declared but never defined, so the iterator is modelled without them. Position 0 of a row view is the pair (i, 0), which is never a stored pair, so `Deref` there is excluded by its precondition.
- The CPU-side `DataCsr` constructors are defined twice, in erised/core/src/data_csr-inl.h and erised/core/src/data_csr.cc, with the same code; both are modelled by `DataCsrMat.DataCsr`.
- `SimMatrix.SimMat.Element` reads through `TriangularMat.Get`. The source calls `mat_.Element(x, y)` (erised/core/src/sim_mat-inl.h:25, 30), which `TriangularMat` does not declare; its accessor is `operator()`.
- `SimMatrix.SimMat.Reduce` starts from the zero array `Zeros(n)`. The source passes `static_cast<T>(0)` where a `std::array<T, N>` is expected, and its combiner is declared to return `T` (erised/core/src/sim_mat-inl.h:46, 56).
- The moving `SimMat(size, elems&&)` constructor is the same as the copying one (`SimMatrix.SimMat.FromVector`).

## Findings

| source | as written | input that shows it | evidently intended | confidence | as-written member | corrected member |
|---|---|---|---|---|---|---|
| erised/core/src/triangular_mat-inl.h:27-28 | the index formula uses n = SizeValidElements() (the slot count) instead of the matrix size | size 4, pair (1, 3): slot 6 of a 6-slot vector | n = size, giving slot 4 | not executed | Triangular.IndexAsWrittenOutOfRange | Triangular.IndexInjective |
| erised/core/src/cuda_csr-inl.h:192 | RowMap ends row i at rows_offset_[i + 1] | {{1}} row 0: offset 1 does not exist; {{1}, {0}} row 0: offset 1 is INVALID_LINE (-1) | end at the next valid offset, or at the end of elems_ | not executed | CudaCsrMat.AsWrittenRowMapFails | CudaCsrMat.RowMapTouchesOnlyRow |
| erised/core/src/data_csr_map-inl.h:61-65 | the (rows, cols) constructor sets the sizes but creates no row map | rows 1, cols 1: operator()(0, 0) throws out_of_range | rows_ holds `rows` empty maps, as in MatCsr | not executed | DataCsrMapMat.DimsAsWrittenBreaksRows | SparseRows.FromDimsEmpty |
