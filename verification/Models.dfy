/** The shared records of the application (models/interfaces.ts). Dates are
    milliseconds since the epoch; prices, years and counts are integers;
    ratings are reals. */
module Models {
  import opened Wrappers

  /** `UserModel.role`. */
  datatype Role = UserRole | AdminRole

  function RoleName(r: Role): string {
    match r
    case UserRole => "user"
    case AdminRole => "admin"
  }

  datatype UserModel = UserModel(
    id: string,
    fullName: string,
    email: string,
    phone: string,
    licenseNumber: string,
    dateOfBirth: string,
    role: Role,
    createdAt: int)

  /** `CarModel.type` (a TypeScript string union). */
  datatype CarType = Sedan | Suv | Truck | Coupe | Hatchback | Van | Wagon | OtherType

  function CarTypeName(t: CarType): string {
    match t
    case Sedan => "sedan"
    case Suv => "suv"
    case Truck => "truck"
    case Coupe => "coupe"
    case Hatchback => "hatchback"
    case Van => "van"
    case Wagon => "wagon"
    case OtherType => "other"
  }

  datatype Transmission = Automatic | Manual | SemiAutomatic

  function TransmissionName(t: Transmission): string {
    match t
    case Automatic => "automatic"
    case Manual => "manual"
    case SemiAutomatic => "semi-automatic"
  }

  datatype FuelType = Petrol | Diesel | Electric | Hybrid | OtherFuel

  function FuelTypeName(f: FuelType): string {
    match f
    case Petrol => "petrol"
    case Diesel => "diesel"
    case Electric => "electric"
    case Hybrid => "hybrid"
    case OtherFuel => "other"
  }

  datatype CarModel = CarModel(
    id: string,
    make: string,
    model: string,
    year: int,
    carType: CarType,
    transmission: Transmission,
    fuelType: FuelType,
    seats: int,
    mileage: int,
    pricePerDay: int,
    features: seq<string>,
    location: string,
    availability: bool,
    images: seq<string>,
    rating: real,
    numberOfRatings: int)

  /** The catalogue filters; `type`, `transmission`, `fuelType` and `seats` use `'all'` for "any". */
  datatype FilterCriteria = FilterCriteria(
    searchQuery: string,
    carType: string,
    transmission: string,
    fuelType: string,
    minPrice: int,
    maxPrice: int,
    seats: string,
    location: string,
    sortBy: string)

  /** What the authentication endpoints answer. */
  datatype AuthResponse = AuthResponse(user: UserModel, token: string, refreshToken: string, expiresIn: int)

  /** The claims carried by an access token; `exp` is in seconds since the epoch. */
  datatype TokenPayload = TokenPayload(userId: string, email: string, role: string, exp: int)

  /** The envelope every car-booking API response uses. */
  datatype ApiResponse<T> = ApiResponse(
    success: bool,
    data: Option<T>,
    count: Option<int>,
    error: Option<string>,
    message: Option<string>)
}
