/** The channel names, fetch codes and message headlines the components agree on. Their
    string values are not part of this model; any pairwise distinct strings will do, and
    the model only relies on them being distinct. */
module Names {

  const GET_BOARD_DATA: string := "getBoardData"
  const GET_FIGURINE_DATA: string := "getFigurineData"
  const CONCURRENT_MANAGEMENT: string := "concurrentManagement"

  const BOARD_DATA: string := "boardData"
  const BOARD_FIELD_LOCATION: string := "boardFieldLocation"
  const BOARD_PATHFINDER: string := "boardPathfinder"
  const FIGURINE_FULL_LIST: string := "figurineFullList"
  const FIGURINE_TELEMETRY: string := "figurineTelemetry"

  const PLEASE_FIND_PATH: string := "pleaseFindPath"
  const FOUND_PATH: string := "foundPath"
}
