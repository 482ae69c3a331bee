# rocBLAS host-side decision logic in Dafny

This project models the host-side part of rocBLAS, the GPU BLAS library. The GPU kernels
themselves live outside it. The model covers these pieces:

- **Entry-point guard chains.** `rocblas_gemv_strided_batched_impl`, `rocblas_trsm_batched_ex_impl`
  with the `compute_type` switch of `rocblas_trsm_batched_ex`, `rocblas_hbmv_batched_impl`,
  `rocblas_hpmv_batched_impl`, `rocblas_hpr2_batched_impl`, `rocblas_hpr_impl`,
  `rocblas_rotm_impl` and `rocblas_dot_batched_ex_impl`.
  - Each chain is an ordered list of early returns (`Guards.Run`): invalid handle, the
    device-memory size query, invalid `uplo`, invalid sizes, quick returns and null pointers.
  - After the guards comes the pipeline: the input numerics check, the kernel, then the output
    numerics check (`Guards.Pipeline`). Each call's status and the list of calls made are
    recorded.
  - The handle is a record: null or live, pointer mode, size-query flag and check_numerics mode.
    Pointers are null/non-null booleans. Scalars are reduced to the facts the code tests (null,
    0, 1, other).
  - Results of foreign services are inputs to the model: the size query, workspace allocation,
    memory setup, memset, the numerics checks and the kernel status.
- **Two kernels as sequential in-place loops over arrays.**
  - `rotm_kernel_calc`: the modified Givens update, driven by `flag` (-2, < 0, 0, > 0).
  - `her_kernel_calc`: the Hermitian rank-1 update. It writes only one triangle and makes the
    diagonal real.
  - Around them: `quick_return_param`, and the rotm and her templates with the negative-increment
    pointer shift, the ceiling-division grid sizing and the per-batch strided layout.
- **The check_numerics status decision.** `rocblas_check_numerics_abnormal_struct` combines the
  NaN/zero/Inf flags with the info/warn/fail bitmask. The model also covers the quick return
  and the grid of `rocblas_internal_check_numerics_vector_template`.
- **BLAS1-extension gtest suite.**
  - `blas1_ex_enabled` over the type enum, `function_filter`, and the valid/invalid `testing`
    selection.
  - `name_suffix` as a method that appends tokens to a name stream. Tokens are literals or field
    tags.
- **Host batch-vector initialiser.** `rocblas_init_template` is the `Rng` and
  `HostBatchVector` classes and a nested loop. It resets the seed, shifts the base for a
  negative increment and writes n generated values per batch. `rocblas_init` and
  `rocblas_init_nan` route to it.

Values are mathematical integers (pairs of integers for complex numbers); nothing is IEEE
floating point.

## Model

| member | source | states |
|---|---|---|
| Guards.PipelineStopsAtFirstFailure | library/src/blas2/rocblas_hbmv_batched.cpp:119-166 | The pipeline makes its calls in the scheduled order (input check, kernel, output check) and stops at the first one whose status is not success, returning that status. |
| Guards.PipelineKernelAndSuccess | library/src/blas2/rocblas_hpr.cpp:77-133 | The kernel is called exactly when numerics checking is off or the input check passes. The call succeeds exactly when every service it called succeeded. |
| Gemv.GemvNullHandle | library/src/blas2/rocblas_gemv_strided_batched.cpp:41-42 | A null handle gives invalid_handle, and no foreign call is made. |
| Gemv.GemvSizeQuery | library/src/blas2/rocblas_gemv_strided_batched.cpp:44-47 | A size query returns the size-query answer before any size or pointer is validated. |
| Gemv.GemvInvalidSize | library/src/blas2/rocblas_gemv_strided_batched.cpp:129-130 | With a working handle, invalid_size is returned iff m<0, n<0, lda<m, lda<1, incx==0, incy==0 or batch_count<0, whatever the pointers. A second argument list with the same sizes but other pointers gets the same status. |
| Gemv.GemvQuickReturn | library/src/blas2/rocblas_gemv_strided_batched.cpp:132-133 | With valid sizes and m==0, n==0 or batch_count==0 the call succeeds, with every pointer null or not. |
| Gemv.GemvNullScalar | library/src/blas2/rocblas_gemv_strided_batched.cpp:135-136 | Past the quick return, a null alpha or beta gives invalid_pointer. |
| Gemv.GemvHostAlphaZeroBetaOne | library/src/blas2/rocblas_gemv_strided_batched.cpp:138-141 | In host mode with alpha==0 and beta==1 the call succeeds without a kernel call, whatever A, x and y are. |
| Gemv.GemvPointerChecks | library/src/blas2/rocblas_gemv_strided_batched.cpp:138-146 | Past the scalar checks, a null y is always invalid_pointer. A null A or x is invalid_pointer only outside the host-mode alpha==0 case. |
| Gemv.GemvFinalStatus | library/src/blas2/rocblas_gemv_strided_batched.cpp:148-206 | Past the guards, a failing kernel status is returned unchanged. A successful kernel gives perf_degraded when the workspace allocation failed, and success otherwise. The numerics checks wrap the kernel. |
| Gemv.GemvKernelNeedsGuards | library/src/blas2/rocblas_gemv_strided_batched.cpp:129-146 | The kernel is called only when every guard passes. |
| Trsm.TrsmDispatchTypes | library/src/blas3/rocblas_trsm_batched.cpp:327-399 | f64_r and f64_c dispatch with DTRSM_BLOCK, f32_r and f32_c with STRSM_BLOCK (both 128). Every other compute_type gives not_implemented without calling the implementation. |
| Trsm.TrsmNullHandle | library/src/blas3/rocblas_trsm_batched.cpp:46-47 | A null handle gives invalid_handle. |
| Trsm.TrsmInvalidUplo | library/src/blas3/rocblas_trsm_batched.cpp:132-133 | An uplo other than lower or upper gives invalid_value, whatever the sizes and pointers. |
| Trsm.TrsmInvalidSize | library/src/blas3/rocblas_trsm_batched.cpp:136-138 | With a valid uplo and k = m for side left (n otherwise), invalid_size is returned iff batch_count<0, m<0, n<0, lda<k or ldb<m. |
| Trsm.TrsmQuickReturn | library/src/blas3/rocblas_trsm_batched.cpp:141-143 | An empty problem (m, n or batch_count zero) with valid arguments gives size_unchanged to a size query and success otherwise, with no pointer examined. |
| Trsm.TrsmNullPointer | library/src/blas3/rocblas_trsm_batched.cpp:145-146 | Past the quick return, a null alpha, A or B gives invalid_pointer. |
| Trsm.TrsmFinalStatus | library/src/blas3/rocblas_trsm_batched.cpp:159-205 | A memory-setup status other than success or perf_degraded is returned unchanged. Otherwise a failing template status wins, and a successful one yields the memory-setup status. |
| Hbmv.HbmvNullHandle | library/src/blas2/rocblas_hbmv_batched.cpp:31-32 | A null handle gives invalid_handle. |
| Hbmv.HbmvInvalidSize | library/src/blas2/rocblas_hbmv_batched.cpp:99-100 | invalid_size is returned iff n<0, k<0, lda<=k (strict), incx==0, incy==0 or batch_count<0; the only exception is a service that itself reports invalid_size. |
| Hbmv.HbmvQuickReturn | library/src/blas2/rocblas_hbmv_batched.cpp:102-103 | n==0 or batch_count==0 succeeds before any pointer check. |
| Hbmv.HbmvNullScalar | library/src/blas2/rocblas_hbmv_batched.cpp:105-106 | A null alpha or beta gives invalid_pointer. |
| Hbmv.HbmvPointerChecks | library/src/blas2/rocblas_hbmv_batched.cpp:108-117 | Host mode with alpha==0 and beta==1 succeeds without checking A, x or y. Otherwise a null A or x is invalid_pointer, and a null y always is. |
| Hbmv.HbmvIgnoresUplo | library/src/blas2/rocblas_hbmv_batched.cpp:17-117 | The outcome is the same for every uplo value, fill_full included. |
| Hbmv.HbmvPipeline | library/src/blas2/rocblas_hbmv_batched.cpp:119-166 | Past the guards, a failing input check returns before the kernel, and a failing kernel returns before the output check. Both checks see the caller's batch_count. |
| Hpmv.HpmvNullHandle | library/src/blas2/rocblas_hpmv_batched.cpp:29-30 | A null handle gives invalid_handle. |
| Hpmv.HpmvInvalidUplo | library/src/blas2/rocblas_hpmv_batched.cpp:87-88 | An uplo other than lower or upper gives invalid_value, even when the sizes are also bad. |
| Hpmv.HpmvInvalidSize | library/src/blas2/rocblas_hpmv_batched.cpp:90-91 | invalid_size is returned iff n<0, incx==0, incy==0 or batch_count<0; the only exception is a service that itself reports it. |
| Hpmv.HpmvQuickReturn | library/src/blas2/rocblas_hpmv_batched.cpp:93-94 | n==0 or batch_count==0 succeeds whatever the pointers. |
| Hpmv.HpmvNullScalar | library/src/blas2/rocblas_hpmv_batched.cpp:96-97 | A null alpha or beta gives invalid_pointer. |
| Hpmv.HpmvPointerChecks | library/src/blas2/rocblas_hpmv_batched.cpp:99-108 | Host mode with alpha==0 and beta==1 succeeds. Otherwise a null AP or x is invalid_pointer, and a null y always is. |
| Hpmv.HpmvPipeline | library/src/blas2/rocblas_hpmv_batched.cpp:113-181 | Past the guards, the call is the numerics pipeline over the caller's batch_count. |
| Hpr.HprNullHandle | library/src/blas2/rocblas_hpr.cpp:26-27 | A null handle gives invalid_handle. |
| Hpr.HprInvalidUplo | library/src/blas2/rocblas_hpr.cpp:65-66 | A bad uplo gives invalid_value before the sizes are looked at. |
| Hpr.HprInvalidSize | library/src/blas2/rocblas_hpr.cpp:67-68 | invalid_size is returned iff n<0 or incx==0; the only exception is a service that itself reports it. |
| Hpr.HprQuickReturn | library/src/blas2/rocblas_hpr.cpp:69-70 | n==0 succeeds before the pointers are checked. |
| Hpr.HprNullPointer | library/src/blas2/rocblas_hpr.cpp:71-72 | Past the quick return, a null x, AP or alpha gives invalid_pointer. |
| Hpr.HprPipeline | library/src/blas2/rocblas_hpr.cpp:77-133 | A failing input check keeps the kernel from running, and a failing kernel returns before the output check. The checks see batch_count 1. |
| Hpr2.Hpr2NullHandle | library/src/blas2/rocblas_hpr2_batched.cpp:29-30 | A null handle gives invalid_handle. |
| Hpr2.Hpr2InvalidUplo | library/src/blas2/rocblas_hpr2_batched.cpp:86-87 | uplo = fill_full (any value but lower and upper) gives invalid_value. |
| Hpr2.Hpr2InvalidSize | library/src/blas2/rocblas_hpr2_batched.cpp:88-89 | invalid_size is returned iff n<0, incx==0, incy==0 or batch_count<0; the only exception is a service that itself reports it. |
| Hpr2.Hpr2AllNullPointers | clients/include/blas2/testing_hpr2_batched.hpp:107-113 | With every pointer null, bad sizes give invalid_size and n==0 or batch_count==0 gives success, as the client test expects. |
| Hpr2.Hpr2NullPointer | library/src/blas2/rocblas_hpr2_batched.cpp:92-93 | Past the quick return, any null x, y, AP or alpha gives invalid_pointer. There is no alpha==0 shortcut. |
| Hpr2.Hpr2Pipeline | library/src/blas2/rocblas_hpr2_batched.cpp:98-166 | Both numerics checks are told batch_count 1 whatever the caller passed. The first failing status among input check, kernel and output check is returned; otherwise the kernel's status is. |
| DotBatchedEx.DotBatchedExImpl | library/src/blas_ex/rocblas_dot_batched_ex.cpp:29-157 | Its status is the status of the guard chain. When the quick path zero-fills, the first batch_count slots of result become 0. When the template is called, they hold what the template left there, whatever status it returns. The other slots keep their values, and every path that reaches neither leaves the buffer unchanged. |
| DotBatchedEx.DotNullHandle | library/src/blas_ex/rocblas_dot_batched_ex.cpp:29-32 | A null handle gives invalid_handle. |
| DotBatchedEx.DotSizeQuery | library/src/blas_ex/rocblas_dot_batched_ex.cpp:36-42 | A size query gives size_unchanged when n<=0 or batch_count<=0, and the answer of setting the optimal size otherwise. It never writes the results. |
| DotBatchedEx.DotEmptyBatch | library/src/blas_ex/rocblas_dot_batched_ex.cpp:117-118 | batch_count<=0 succeeds without touching the results, even through a null pointer. |
| DotBatchedEx.DotQuickReturn | library/src/blas_ex/rocblas_dot_batched_ex.cpp:120-133 | With n<=0 and batch_count>0, a null result gives invalid_pointer. Otherwise a failing device memset is returned, and else the call zero-fills and succeeds. x and y are never checked. |
| DotBatchedEx.DotMainPath | library/src/blas_ex/rocblas_dot_batched_ex.cpp:135-157 | With n>0, a null x, y or result gives invalid_pointer. A failed workspace allocation gives memory_error (not perf_degraded). Otherwise the template's status is returned. |
| DotBatchedEx.DotBufferWriters | library/src/blas_ex/rocblas_dot_batched_ex.cpp:117-157 | A call that zero-fills the results succeeds. The template is reached iff the handle is valid, it is not a size query, batch_count>0, n>0, x, y and result are non-null and the workspace was allocated. The two writers never both act, so a call that fails before the template leaves the buffer as it was. |
| Rotm.RotmNullHandle | library/src/blas1/rocblas_rotm.cpp:30-31 | A null handle gives invalid_handle. |
| Rotm.RotmSizeQuery | library/src/blas1/rocblas_rotm.cpp:33 | A size query gives size_unchanged before any argument is examined. |
| Rotm.RotmQuickReturn | library/src/blas1/rocblas_rotm.cpp:52-53 | n<=0 succeeds before param, x or y are checked. |
| Rotm.RotmPointerChecks | library/src/blas1/rocblas_rotm.cpp:55-62 | With n>0, a null param gives invalid_pointer. In host mode, param[0]==-2 gives success without checking x or y. Otherwise a null x or y gives invalid_pointer. |
| Rotm.RotmNoInvalidSize | library/src/blas1/rocblas_rotm.cpp:22-113 | No guard returns invalid_size (incx and incy are never validated). The call returns invalid_size only if one of the numerics checks' device copies does. |
| Rotm.RotmPipeline | library/src/blas1/rocblas_rotm.cpp:64-112 | Past the guards the one-batch template succeeds. The outcome is input numerics, then template, then output numerics, with the first failure returned. Without numerics checking the call is the kernel alone and succeeds. |
| Rotm.RotmCheckNumericsOrder | library/src/blas1/rocblas_rotm.hpp:217-259 | x is checked first and its failure is returned without checking y. The result is success iff both checks succeed. |
| RotmKernel.RotmFlagConventions | library/src/blas1/rocblas_rotm.hpp:31-51 | flag==-2 is the identity. flag<0 applies the full H. flag==0 takes h11=h22=1. flag>0 takes h12=1 and h21=-1. The new values are computed from the old w and z. |
| RotmKernel.RotmLinear | library/src/blas1/rocblas_rotm.hpp:37-51 | For every flag the update is linear in (w, z). |
| RotmKernel.RotmKernelCalc | library/src/blas1/rocblas_rotm.hpp:27-52 | Each pair x[base+i*incx], y[base+i*incy] for i<n gets the transformed pair of its old values. Every other element is unchanged, and flag -2 changes nothing. |
| RotmKernel.QuickReturnParamIsIdentity | library/src/blas1/rocblas_rotm.hpp:125-161 | When quick_return_param fires, the parameter block of every batch has flag -2, so each batch's transform maps every (x, y) pair to itself. Skipping the launch gives the same vectors as running the kernel. |
| RotmKernel.TemplatePlanStatus | library/src/blas1/rocblas_rotm.hpp:155-215 | n<=0 or batch_count<=0 succeeds with no launch. The only other status is not_implemented, returned exactly for host mode with a batched or strided call. A launch has (n-1)/512+1 by batch_count blocks of 512 threads, which cover n with no idle block. |
| RotmKernel.RotmTemplate | library/src/blas1/rocblas_rotm.hpp:139-215 | It returns the plan above. On a launch every batch's n pairs, at the shifted strided positions, get the transform with that batch's parameter block, and nothing outside the batches changes. Without a launch x and y are unchanged. |
| Strides.ShiftedAccess | library/src/blas1/rocblas_rotm.hpp:162-163 | After the negative-increment shift, element i sits at offset+i*inc (inc>0) or offset+(n-1-i)*\|inc\| (inc<0). Every access lies within [offset, offset+(n-1)\|inc\|]. |
| Strides.AtInjective | library/src/blas1/rocblas_rotm.hpp:33-34 | With a non-zero increment, distinct threads touch distinct elements. |
| Strides.BatchesDisjoint | library/src/blas1/rocblas_rotm.hpp:27-28 | With a stride of at least n*\|inc\|, every element of an earlier batch lies below every element of a later one. |
| Strides.BlocksCover | library/src/blas1/rocblas_rotm.hpp:165-166 | (n-1)/nb+1 blocks of nb threads cover all n elements with no idle block. |
| Her.TermHermitian | library/src/blas2/rocblas_her.hpp:18 | The term alpha*x_i*conj(x_j) of entry (i, j) is the conjugate of that of entry (j, i). |
| Her.DiagonalIsRealUpdate | library/src/blas2/rocblas_her.hpp:19-25 | A diagonal entry becomes real(A[i][i]) + alpha*\|x_i\|^2, discarding its imaginary part, which equals the real part of the full rank-1 update. |
| Her.HerValueTriangles | library/src/blas2/rocblas_her.hpp:17-25 | For upper only entries strictly above the diagonal get the term (for lower, only strictly below). The opposite triangle keeps its value, and the diagonal is real. |
| Her.APosInjective | library/src/blas2/rocblas_her.hpp:18-23 | tx + lda*ty addresses distinct entries for distinct (tx, ty) with rows below lda. |
| Her.HerKernel | library/src/blas2/rocblas_her.hpp:11-52 | alpha==0 leaves A unchanged. Otherwise every entry of the n by n matrix gets its new value from the old one and x, and nothing outside the matrix is written. |
| Her.HerCalc | library/src/blas2/rocblas_her.hpp:11-25 | One thread's step: entries visited up to and including (tx, ty) hold their new value, the others their original one, and nothing outside the matrix changes. |
| Her.HerGridCovers | library/src/blas2/rocblas_her.hpp:84-90 | (n-1)/128+1 by (n-1)/8+1 by batch_count blocks of 128 by 8 threads cover every (tx, ty) < n with no idle block. |
| Her.MatrixBatchesDisjoint | library/src/blas2/rocblas_her.hpp:49 | With stride_A >= n*lda, every entry of an earlier batch's matrix lies below every entry of a later one. |
| Her.HerTemplate | library/src/blas2/rocblas_her.hpp:63-130 | The status is success. n==0 or batch_count==0 is no launch; otherwise it is the her grid. With alpha != 0 every batch's matrix is updated from the shifted x. alpha==0 or no launch leaves A unchanged, and nothing outside the batches changes. |
| Her.HerCheckNumericsOnlyX | library/src/blas2/rocblas_her.hpp:133-162 | The result never depends on A, lda or stride_A. A null x passes. When the copies succeed the result is check_numerics_fail iff x is abnormal and the fail bit is set. |
| CheckNumerics.AbnormalStructStatus | library/src/check_numerics_vector.cpp:30-56 | The status is check_numerics_fail iff NaN or Inf is flagged and the fail bit is set, and success otherwise. The zero flag never changes it. |
| CheckNumerics.ToggleBits | library/src/check_numerics_vector.cpp:33-52 | Flipping one of the info, warn and fail bits of any int mode (the `& mask` tests) flips that bit's test and leaves the other two tests as they were. |
| CheckNumerics.AbnormalStructBitRoles | library/src/check_numerics_vector.cpp:30-56 | Flipping the fail bit never changes the message, and it changes the status iff the vector is abnormal. Flipping the info or warn bit never changes the status. |
| CheckNumerics.AbnormalStructInputOnlyLabels | library/src/check_numerics_vector.cpp:36-47 | is_input changes only the Input/Output label, never the status nor whether a message is written. |
| CheckNumerics.ModeBits | library/src/check_numerics_vector.cpp:33-53 | Modes 1, 2 and 4 are seen as exactly info, warn and fail; 0 as none and 7 as all three. |
| CheckNumerics.CheckVectorQuickReturn | library/src/check_numerics_vector.cpp:98-101 | n<=0, inc_x<=0, batch_count<=0 or a null x gives success with no kernel and no message. A kernel is launched exactly when none of these holds and the first copy succeeds. |
| CheckNumerics.CheckVectorStatus | library/src/check_numerics_vector.cpp:107-139 | A failing copy to or from the device returns its status. Otherwise the status is that of the flag decision: fail iff abnormal and the fail bit is set. |
| CheckNumerics.CheckVectorGridCovers | library/src/check_numerics_vector.cpp:116-118 | (n-1)/256+1 by batch_count blocks of 256 threads cover every element of every batch with no idle block. |
| Blas1ExGtest.EnabledFloatDouble | clients/gtest/blas1_ex_gtest.cpp:151-228 | Four identical float or double types are enabled for every routine. |
| Blas1ExGtest.Nrm2Complex | clients/gtest/blas1_ex_gtest.cpp:219-228 | nrm2 of a complex vector is enabled iff the result and compute types are the real type of the same precision; all-complex nrm2 is disabled. |
| Blas1ExGtest.RotLowPrecision | clients/gtest/blas1_ex_gtest.cpp:180-197 | rot with half or bfloat16 x is enabled iff y and cs have that type and compute is float; an all-half rot is disabled. |
| Blas1ExGtest.BFloat16Support | clients/gtest/blas1_ex_gtest.cpp:151-215 | bfloat16 is never enabled for axpy or scal. dot with bfloat16 x is enabled iff y and the result are bfloat16 and compute is float. rot accepts bfloat16 with float compute. |
| Blas1ExGtest.ScalRealAlpha | clients/gtest/blas1_ex_gtest.cpp:201-215 | scal accepts a real alpha with complex x and compute of the same precision, and not of the other precision. |
| Blas1ExGtest.ThreeTypeFamilies | clients/gtest/blas1_ex_gtest.cpp:201-228 | For scal and nrm2 the fourth type argument never changes whether a combination is enabled. |
| Blas1ExGtest.SelectFilter | clients/gtest/blas1_ex_gtest.cpp:240-271 | A disabled combination is exactly the invalid test. An enabled one runs the test for NAME and the bad-argument test for NAME_bad_arg, and fails for any function name the filter rejects. |
| Blas1ExGtest.AppendFields | clients/gtest/blas1_ex_gtest.cpp:108-137 | The successive appends produce the field tokens of the routine's family and classification, followed by "_F" exactly for Fortran. |
| Blas1ExGtest.NameSuffix | clients/gtest/blas1_ex_gtest.cpp:66-140 | The name is "_bad_arg" alone for a function name containing "_bad_arg", and the routine's field tokens otherwise. |
| Blas1ExGtest.SuffixContents | clients/gtest/blas1_ex_gtest.cpp:70-137 | Outside bad-argument tests a name starts with a_type. It shows exactly the fields its family and classification call for, each after a '_' and in declaration order: c_type only for axpy, dot and rot, and so on. It carries "_F" iff fortran. |
| Blas1ExGtest.RowNames | clients/gtest/blas1_ex_gtest.cpp:70-73 | No routine name contains "_bad_arg". So a suite's NAME rows get the field tokens, and its NAME_bad_arg rows get "_bad_arg" alone. |
| Blas1ExGtest.ClassificationAgrees | clients/gtest/blas1_ex_gtest.cpp:97-106 | is_batched and is_strided agree with each routine's batching, except for dotc_batched_ex and dotc_strided_batched_ex. |
| Blas1ExGtest.DotcMisclassified | clients/gtest/blas1_ex_gtest.cpp:80-106 | dotc_batched_ex and dotc_strided_batched_ex count as dot and batch, yet are neither is_batched nor is_strided. |
| Blas1ExGtest.DotcNamesOmitBatch | clients/gtest/blas1_ex_gtest.cpp:97-134 | The names of those two routines show neither batch_count nor stride_x. |
| Blas1ExGtest.IntendedNamesShowBatch | clients/gtest/blas1_ex_gtest.cpp:124-134 | Classified by their batching, every batched or strided routine's name shows batch_count, every strided one's shows stride_x, and no other does. |
| InitVector.Rng.SeedRand | clients/include/rocblas_vector.hpp:29-30 | Resetting the seed restarts the generator's sequence. |
| InitVector.Rng.Draw | clients/include/rocblas_vector.hpp:41 | A draw returns the next value of the generator's sequence and advances it by one. |
| InitVector.FillBatch | clients/include/rocblas_vector.hpp:40-41 | The inner loop writes draw number old+i to position base+i*inc for i<n, draws n values and changes nothing else. |
| InitVector.InitTemplate | clients/include/rocblas_vector.hpp:26-43 | It resets the seed only when seedReset is set, and draws batch_count*n values. Batch b's element i gets draw start+b*n+i at its shifted position, and every element outside the written positions keeps its value. |
| InitVector.PosLayout | clients/include/rocblas_vector.hpp:35-41 | After the -(n-1)*inc shift, element i of batch b is at b*stride + i*inc (inc>0) or b*stride + (n-1-i)*\|inc\| (inc<0), within a segment of (n-1)*\|inc\|+1 elements inside the buffer. |
| InitVector.PosCovers | clients/include/rocblas_vector.hpp:35-41 | Every offset j*\|inc\| with j<n is written: by element j for inc>0, by element n-1-j for inc<0. |
| InitVector.PosInjective | clients/include/rocblas_vector.hpp:32-41 | Distinct (batch, element) pairs land on distinct positions, so one batch's writes never touch another's. |
| InitVector.OffGridUnwritten | clients/include/rocblas_vector.hpp:40-41 | An offset within a batch that is not a multiple of \|inc\| is never written. |
| InitVector.FilledOffsets | clients/include/rocblas_vector.hpp:35-41 | The value at offset j*\|inc\| of batch b is draw start+b*n+j for inc>0 and start+b*n+(n-1-j) for inc<0. |
| InitVector.Init | clients/include/rocblas_vector.hpp:50-65 | rocblas_init of a strided or batched vector is the template with the random generator. |
| InitVector.InitNan | clients/include/rocblas_vector.hpp:85-111 | rocblas_init_nan (for all three vector kinds) is the template with the NaN generator. |

## Findings

| source | as written | input that shows it | evidently intended | confidence | as-written member | corrected member |
|---|---|---|---|---|---|---|
| clients/gtest/blas1_ex_gtest.cpp:97-106 | is_batched and is_strided list dot_batched_ex and dot_strided_batched_ex but not dotc_batched_ex and dotc_strided_batched_ex | a dotc_batched_ex or dotc_strided_batched_ex row, whose name then carries no batch_count and no stride_x | the dotc routines classified like their dot counterparts, so their names show batch_count (and stride_x when strided) | not executed | Blas1ExGtest.DotcNamesOmitBatch | Blas1ExGtest.IntendedNamesShowBatch |

## Left out

- Logging (`log_trace`, `log_bench`, `log_profile`): string output with no effect on any status.
- GPU machinery: kernel launches, streams, `hipMemcpy`, `hipMemsetAsync`, `device_malloc` and the workspace-size helpers are foreign calls. Their results (size-query answer, allocation success, memset and copy statuses, kernel and template statuses) are parameters of the model.
- Her.HerKernel, Her.HerCalc and Her.HerTemplate require 0 <= n <= lda, which the entry point guarantees by returning invalid_size for lda < n (testing_her.hpp:69 exercises it). Her.HerTemplate also requires stride_A >= n*lda when batch_count > 1, which the source does not check: with overlapping batches the GPU result depends on the block order.
- Per-thread parallelism: the rotm and her kernels run their threads one after the other. The model therefore requires non-zero increments and distinct x and y buffers, because with inc==0 or aliased buffers the GPU result depends on the thread race.
- The kernel's own exit when launched with the wrong thread count (rocblas_her.hpp:42-43) is not modelled, because the template always launches 128 by 8.
- IEEE floating point: rounding, NaN and Inf are not modelled. Elements are integers (complex elements are integer pairs). The NaN/zero/Inf flags the check_numerics kernel computes are an input record.
- The check_numerics helpers each routine calls (`rocblas_gemv_check_numerics`, `rocblas_hbmv_check_numerics` and the like) are not part of this model. Their statuses are inputs; only rotm's and her's helpers are modelled, on top of the vector check.
- Integer widths: `rocblas_int`, `ptrdiff_t` and `size_t` arithmetic is unbounded here. The overflow of n*inc or lda*n in 32 bits is not modelled, because the source does not guard it either.
- Handle internals: RETURN_ZERO_DEVICE_MEMORY_SIZE_IF_QUERIED (handle.hpp) is taken to return size_unchanged. The check_numerics mode bits are taken to be info=1, warn=2 and fail=4, as rocblas-types.h defines them; neither file is part of this model.
- Memory layouts: a batched call's array of pointers is modelled as one strided buffer, and so is host_batch_vector's separate allocation per batch. The model covers no aliasing between batches beyond the stride.
- The dot quick path writes rocblas_sizeof_datatype(result_type)*batch_count bytes. The model writes batch_count whole slots; the element type is not modelled.
- DotBatchedEx.DotBatchedExImpl: what rocblas_dot_ex_template leaves in the result slots is an arbitrary value per slot, an input of the model. The dot products themselves, and whether a failing template wrote anything, are not modelled.
- The `compute_type` datatypes of dot and trsm reach only the templates; the templates' numeric results are not modelled.
- Test names: only the suffix tokens are modelled. Field values are tags, with no rendering to text by rocblas_datatype2string or stream formatting, and the `RocBLAS_TestName` prefix and de-duplication are not modelled.
- The host_vector overload of `rocblas_init` (rocblas_vector.hpp:72-78) calls an initialiser outside the template (in rocblas_init.hpp, not part of this model). Only its seed reset is the same as the template's.
- The generators' internals: `random_generator` and `random_nan_generator` are each a fixed sequence of values indexed by the number of draws so far.
- Test drivers (device transfers, pointer-mode dual runs, the CPU reference, timing), the gtest instantiation machinery, the `extern "C"` try/catch wrappers and the GFLOP/GByte accounting.
- The wrappers whose argument checks live in files that are not part of this model (hemm, herkx, ger, syr), and rocblas-auxiliary.h (declarations only).
