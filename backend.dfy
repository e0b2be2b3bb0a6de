/**
 * The backend calls of the REST client (src/Api/api.jsx) as the requests
 * they issue. The components record each request they make; whether it
 * succeeds is an input of the handler that makes it.
 */
module Backend {
  import opened Wrappers

  /** The minimum cover count `getOptimizedPoints` sends when none is given. */
  const DefaultMinCoverCount: int := 5

  /** The argument given to `updateLocation`: a location object, or a bare id number. */
  datatype UpdateArg =
    | LocationArg(id: Option<int>, name: Option<string>, wkt: string)
    | NumberArg(n: int)

  datatype Request =
    | GetAll                                      // GET    Point/GetAll
    | Add(name: string, wkt: string)              // POST   Point/Add
    | Update(pathId: Option<int>, body: UpdateArg) // PUT    Point/Update/{data.id}
    | Delete(pathId: Option<int>)                 // DELETE Point/Delete/{id}
    | Optimize(polygonWkt: string, minCoverCount: int) // POST api/TrashBin/optimize

  /**
   * `updateLocation(data)`: the id in the path is `data.id`, which is
   * `undefined` when `data` is a number rather than an object.
   */
  function UpdateLocation(data: UpdateArg): (r: Request)
    ensures r.Update? && r.body == data
    ensures data.LocationArg? ==> r.pathId == data.id
    ensures data.NumberArg? ==> r.pathId == None
  {
    Update(if data.LocationArg? then data.id else None, data)
  }

  /** `getOptimizedPoints(wkt)` with the default cover count. */
  function GetOptimizedPoints(polygonWkt: string): (r: Request)
    ensures r.Optimize? && r.polygonWkt == polygonWkt && r.minCoverCount == 5
  {
    Optimize(polygonWkt, DefaultMinCoverCount)
  }
}
