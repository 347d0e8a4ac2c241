/** The shared shapes of src/types.ts that the core uses. */
module Types {
  import opened Wrappers

  /** The `'base' | 'quote'` union. */
  datatype TokenType = Base | Quote

  function Other(t: TokenType): TokenType
  {
    if t == Base then Quote else Base
  }

  /** `BundleRes`, the explorer's record of a bundle, reduced to the two fields the core reads.
      A field the explorer leaves null or undefined is None. */
  datatype BundleRes = BundleRes(transactions: Option<seq<string>>, status: Option<int>)
}
