/** Deletions (`Model.deleteCurrency`, `Model.deleteAccount`,
    `Model.deleteTransaction`): one `DELETE` bound to the owner and the key,
    and the not-found exception when it removes no row. */
module Removal {

  import opened Wrappers
  import opened Sql
  import opened Records
  import opened Patch

  /** `<prefix> WHERE user_id = ? AND <column> = ?` has the two
      placeholders of the owner and the key. */
  lemma DeleteMarks(prefix: string, column: string)
    requires '?' !in prefix && '?' !in column
    ensures Placeholders(prefix + WhereOwnerAnd(column)) == 2
  {
    NoMarks(prefix);
    WhereOwnerAndMarks(column);
    PlaceholdersAdditive(prefix, WhereOwnerAnd(column));
  }

  const CurrencyDelete: string := "DELETE FROM currencies" + WhereOwnerAnd("code")
  const AccountDelete: string := "DELETE FROM accounts" + WhereOwnerAnd("name")
  const TransactionDelete: string := "DELETE FROM transactions" + WhereOwnerAnd("id")

  /** `deleteCurrency`: removes the owner's currency with that code, and
      throws when there is none. */
  method DeleteCurrency(code: Option<string>, userId: int, store: Store)
    returns (issued: Statement, r: Result<()>)
    ensures issued == Statement(CurrencyDelete, [PInt(userId), StrParam(code)])
    ensures Balanced(issued)
    ensures r.Failure? <==> store.affectedRows(issued) == 0
    ensures r.Failure? ==> r.error == Exception("Currency code not found.")
  {
    var query := CurrencyDelete;
    issued := Statement(query, [PInt(userId), StrParam(code)]);
    DeleteMarks("DELETE FROM currencies", "code");
    var rowsDeleted := store.affectedRows(issued);
    r := RowsAffected(rowsDeleted, "Currency code not found.");
  }

  /** `deleteAccount`: removes the owner's account with that name, and
      throws when there is none. */
  method DeleteAccount(name: Option<string>, userId: int, store: Store)
    returns (issued: Statement, r: Result<()>)
    ensures issued == Statement(AccountDelete, [PInt(userId), StrParam(name)])
    ensures Balanced(issued)
    ensures r.Failure? <==> store.affectedRows(issued) == 0
    ensures r.Failure? ==> r.error == Exception("Account name not found.")
  {
    var query := AccountDelete;
    issued := Statement(query, [PInt(userId), StrParam(name)]);
    DeleteMarks("DELETE FROM accounts", "name");
    var rowsDeleted := store.affectedRows(issued);
    r := RowsAffected(rowsDeleted, "Account name not found.");
  }

  /** `deleteTransaction`: removes the owner's transaction with that id,
      and throws when there is none. */
  method DeleteTransaction(id: int, userId: int, store: Store)
    returns (issued: Statement, r: Result<()>)
    ensures issued == Statement(TransactionDelete, [PInt(userId), PInt(id)])
    ensures Balanced(issued)
    ensures r.Failure? <==> store.affectedRows(issued) == 0
    ensures r.Failure? ==> r.error == Exception("Transaction id not found.")
  {
    var query := TransactionDelete;
    issued := Statement(query, [PInt(userId), PInt(id)]);
    DeleteMarks("DELETE FROM transactions", "id");
    var rowsDeleted := store.affectedRows(issued);
    r := RowsAffected(rowsDeleted, "Transaction id not found.");
  }
}
