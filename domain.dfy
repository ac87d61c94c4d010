/**
 The values shared by the store and the two editing components: a spending
 category, the signed-in user, and what the remote category endpoint is sent
 and answers.
 */
module Domain {

  datatype Option<+T> = None | Some(value: T)

  /** One spending category. `expenses` is the accumulated total in
      thousandths of a currency unit (the app keeps totals to three
      decimals).
      `icon` is optional: `None` means no icon has been set. */
  datatype Category = Category(
    id: string,
    name: string,
    color: string,
    icon: Option<string>,
    expenses: nat)

  /** The signed-in user as the server returns it: its id and its categories
      in display order. */
  datatype User = User(id: string, categories: seq<Category>)

  /** What a rejected remote call throws: an `Error` object with a message,
      or some other value (which the handlers ignore). */
  datatype Thrown = ErrorObject(message: string) | NonError

  /** What the remote `changeCategory` call resolves to. The call itself is
      outside the model; a handler is given the reply it would receive. */
  datatype Reply = Success(user: User) | Failure(thrown: Thrown)

  /** The arguments of one `changeCategory(userId, category)` call. */
  datatype ChangeRequest = ChangeRequest(userId: string, category: Category)
}
