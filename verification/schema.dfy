/** The feature schema shared by the client and the serving model: the
    sixteen geometric features of a dry bean, named as in the training
    data's header, in the order the model was trained on. */
module Schema {

  /** The number of features the model expects per row. */
  const NumFeatures: int := 16

  /** The column names, in training order. */
  const FeatureColumns: seq<string> := [
    "Area", "Perimeter", "MajorAxisLength", "MinorAxisLength", "AspectRation",
    "Eccentricity", "ConvexArea", "EquivDiameter", "Extent", "Solidity",
    "roundness", "Compactness", "ShapeFactor1", "ShapeFactor2", "ShapeFactor3",
    "ShapeFactor4"
  ]
}
