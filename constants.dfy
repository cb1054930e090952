/** The product every order is placed for (its identifier and display name are not fixed here). */
module Constants {
  const ProductId: string
  const ProductName: string
}
