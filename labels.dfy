/** The fallback labels the application shows for a missing store or product name. */
module Labels {
  /** "Unknown store", shown when a store has no name. */
  const UnknownStore: string := "Noma'lum do'kon"
  /** "Unknown product", shown when an order item has no product name. */
  const UnknownProduct: string := "Noma'lum mahsulot"
}
