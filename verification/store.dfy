/**
 * The database: one table per model, each a field the controller actions
 * reassign. Every action requires and keeps `Tables.Valid` of the tables it
 * reads by id or writes.
 */
module Store {
  import opened Tables
  import opened Records

  class Db {
    var parties: Table<Party>
    var products: Table<Product>
    var invoices: Table<Invoice>
    var invoiceItems: Table<InvoiceItem>
    var payments: Table<Payment>
    var transactions: Table<Transaction>
    var movements: Table<StockMovement>
    var contacts: Table<PersonalContact>
    var personalTransactions: Table<PersonalTransaction>
    var expenses: Table<Expense>
    var purchases: Table<Purchase>
    var categories: Table<Category>
    var otps: Table<Otp>
    var users: Table<User>

    /** `Transaction::create`: appends one ledger entry and returns its id. */
    method AddTransaction(t: Transaction) returns (id: Id)
      requires Tables.Valid(transactions)
      modifies this`transactions
      ensures Tables.Valid(transactions)
      ensures id == old(transactions.nextId)
      ensures transactions == Insert(old(transactions), t)
    {
      id := transactions.nextId;
      transactions := Insert(transactions, t);
    }

    /** A fresh database: every table empty. */
    constructor ()
      ensures parties.rows == [] && products.rows == [] && invoices.rows == []
      ensures invoiceItems.rows == [] && payments.rows == [] && transactions.rows == []
      ensures movements.rows == [] && contacts.rows == [] && personalTransactions.rows == []
      ensures expenses.rows == [] && purchases.rows == [] && categories.rows == [] && otps.rows == [] && users.rows == []
    {
      parties, products, invoices := Empty(), Empty(), Empty();
      invoiceItems, payments, transactions := Empty(), Empty(), Empty();
      movements, contacts, personalTransactions := Empty(), Empty(), Empty();
      expenses, purchases, categories, otps, users := Empty(), Empty(), Empty(), Empty(), Empty();
    }
  }
}
