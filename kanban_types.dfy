/**
 * The records the renderer receives from the backend: one row of the
 * `columns` table and one row of the `tasks` table, field for field.
 * Ids and orders are SQLite integers; timestamps are opaque strings.
 */
module KanbanTypes {
  import opened Wrappers

  datatype ColumnRecord = ColumnRecord(
    id: int,
    name: string,
    description: Option<string>,
    order: int,
    createdAt: string,
    updatedAt: string)

  datatype Task = Task(
    id: int,
    title: string,
    columnId: int,
    labelId: Option<int>,
    order: int,
    createdAt: string,
    updatedAt: string)
}
