/** The records the backend routes exchange: camera rows and request bodies
    (after the interfaces of the camera types file), what the database hands
    to a callback, and the replies the handlers send. */
module Records {
  import opened Base

  /** A row of the `cameras` table. `password` is the one optional column of
      the row interface; the others are strings. */
  datatype CameraRow = CameraRow(
    id: int,
    name: string,
    rtspUrl: string,
    onvifUrl: string,
    username: string,
    password: Option<string>)

  /** Body of `POST /api/cameras`; every field may be missing from the JSON. */
  datatype AddRequest = AddRequest(
    name: Option<string>,
    host: Option<string>,
    username: Option<string>,
    password: Option<string>)

  /** Body of `PUT` on a camera. */
  datatype UpdateRequest = UpdateRequest(
    name: Option<string>,
    rtspUrl: Option<string>,
    onvifUrl: Option<string>,
    username: Option<string>,
    password: Option<string>)

  /** What `db.get` hands its callback for `SELECT * FROM cameras WHERE id = ?`. */
  datatype RowLookup = LookupFailed(message: string) | NotFound | Found(row: CameraRow)

  /** What `db.run` hands its callback: an error, or the statement's
      `lastID` and `changes`. */
  datatype RunOutcome = RunFailed(message: string) | Ran(lastId: int, changes: nat)

  /** The columns an INSERT or UPDATE of a camera writes, in statement order. */
  datatype CameraColumns = CameraColumns(
    name: string,
    rtspUrl: string,
    onvifUrl: Option<string>,
    username: Option<string>,
    password: Option<string>)

  /** A JSON or plain-text reply body. */
  datatype Body =
    | ErrorBody(error: string)
    | MessageBody(message: string)
    | CreatedBody(lastId: int, camera: CameraColumns)
    | UpdatedBody(message: string, cameraId: string, camera: CameraColumns)
    | TextBody(text: string)

  datatype Response = Response(status: int, body: Body)

  /** The 400 reply with a JSON error. */
  function BadRequest(error: string): Response { Response(400, ErrorBody(error)) }

  /** The 404 reply every camera route sends for a missing camera. */
  const CameraNotFound := Response(404, ErrorBody("Camera not found."))

  /** The 500 reply with a JSON error. */
  function ServerError(error: string): Response { Response(500, ErrorBody(error)) }
}
