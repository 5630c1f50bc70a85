/** The `User` entity: a customer, an administrator or a delivery partner. */
module UserEntity {
  import opened Wrappers
  import opened Statuses

  class User {
    /** Assigned by the identity column; never changed afterwards. */
    const id: int
    var email: string
    var password: string
    var role: Role
    var name: string
    var phone: string
    var vehicleType: Option<string>
    var vehicleNumber: Option<string>
    var isAvailable: bool
    var currentLocation: Option<string>
    var rating: real
    var totalDeliveries: int
    var createdAt: int
    var updatedAt: int
    var resetToken: Option<string>
    var resetTokenExpiry: Option<int>
    var totalEarnings: real
    /** Nullable in the table; a row written before the column existed reads as `None`. */
    var incentives: Option<real>
    var bonus: Option<real>
    var performanceBadge: Option<Badge>
    var onlineStatus: Option<bool>
    var lastOnlineTime: Option<int>

    /**
     * A new user with the given identity and contact fields; every other
     * field takes the default the entity declares.
     */
    constructor (id: int, email: string, password: string, role: Role, name: string, phone: string, now: int)
      ensures this.id == id && this.email == email && this.password == password && this.role == role
      ensures this.name == name && this.phone == phone
      ensures vehicleType == None && vehicleNumber == None && currentLocation == None
      ensures isAvailable && rating == 5.0 && totalDeliveries == 0
      ensures createdAt == now && updatedAt == now
      ensures resetToken == None && resetTokenExpiry == None
      ensures totalEarnings == 0.0 && incentives == Some(0.0) && bonus == Some(0.0)
      ensures performanceBadge == None && onlineStatus == Some(false) && lastOnlineTime == None
    {
      this.id := id;
      this.email := email;
      this.password := password;
      this.role := role;
      this.name := name;
      this.phone := phone;
      vehicleType := None;
      vehicleNumber := None;
      isAvailable := true;
      currentLocation := None;
      rating := 5.0;
      totalDeliveries := 0;
      createdAt := now;
      updatedAt := now;
      resetToken := None;
      resetTokenExpiry := None;
      totalEarnings := 0.0;
      incentives := Some(0.0);
      bonus := Some(0.0);
      performanceBadge := None;
      onlineStatus := Some(false);
      lastOnlineTime := None;
    }
  }
}
