/** Optional values, results and the errors the modelled code can raise. */
module Results {

  datatype Option<T> = None | Some(value: T)

  /** The exceptions raised while building the boundaries and the datasets. */
  datatype Error =
    | ZeroDivision     // `256 // dim_bias` with `dim_bias == 0`
    | ZeroRangeStep    // `range(0, 256, 0)`: the spacing came out as zero
    | SliceMismatch    // `from_tensor_slices` over images and labels of different lengths
    | BatchSizeNotPositive

  datatype Result<T> = Ok(value: T) | Err(error: Error)
}
