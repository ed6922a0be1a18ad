/** The admin list of registered users, filtered by sign-up date. */
module UserList {
  import opened Wrappers
  import opened Text
  import opened DateFilter

  /** A user row as the backend lists it; "" stands for a missing text and 0 for a missing
      count. */
  datatype UserRow = UserRow(id: int, name: string, email: string, totalOrders: int, totalRevenue: int)

  /** `user.name || "-"`. */
  function NameCell(u: UserRow): (cell: string)
    ensures u.name != "" ==> cell == u.name
    ensures u.name == "" ==> cell == "-"
  {
    if u.name != "" then u.name else "-"
  }

  /** `user.total_orders || 0`: a missing count reads 0. */
  function OrdersCell(u: UserRow): (cell: string)
    ensures ParseInt(cell) == Some(u.totalOrders)
  {
    ParseIntOfIntToString(u.totalOrders);
    IntToString(u.totalOrders)
  }

  /** The list as the page creates it: `GET {base}/users/admin/all-users`, with "Failed to load
      users" on failure. */
  method NewUserList(base: string) returns (list: FilteredList<UserRow>)
    ensures fresh(list) && list.endpoint == base + "/users/admin/all-users" && list.failureText == "Failed to load users"
    ensures list.rows == [] && list.fromDate == "" && list.toDate == "" && list.requests == []
  {
    list := new FilteredList(base + "/users/admin/all-users", "Failed to load users");
  }
}
